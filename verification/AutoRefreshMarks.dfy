/** The processing marks and the work queue, while nothing is evicted, deleted or expired: no id waits
    in two places, and if batches are marked as they are queued, the marked ids are those waiting. */
module AutoRefreshMarks {
  import opened Options
  import opened AutoRefreshMachine
  import opened AutoRefreshPlaces

  ghost function Owned(s: State, p: Place): seq<Id> {
    match p
    case InQueue(ref) => if ref in s.sh.queue then s.sh.queue[ref] else []
    case AtWorker(t) => if t in s.threads then UnmarkIds(s.threads[t].ops) else []
  }

  ghost function Owners(s: State): Place -> seq<Id> {
    p => Owned(s, p)
  }

  ghost function HeldBy(sh: Shared, ops: seq<Op>): set<Id> {
    sh.marks.Keys + set k | k in Leading(ops)
  }

  /** The ids that are marked or will be before the loop goes on. */
  ghost function Held(s: State, q: Tid): set<Id> {
    HeldBy(s.sh, if q in s.threads then s.threads[q].ops else [])
  }

  /** The snapshot, as long as it has not been cut into batches. */
  ghost function Kept(th: Thread): seq<Id> {
    if MakeBatches in th.ops then th.picked else []
  }

  /** A creation that queues its item also marks it in the same step. */
  predicate CreatesMarked(c: Config) {
    c.atomicCreate || !c.syncOnCreate
  }

  predicate WorkerOp(op: Op) {
    op.Lookup? || op.AddNew? || op.Lock? || op.Unlock? || op.Contains? || op.Put? ||
    op.Fetch? || op.Unmark? || op.Screen? || op.Call? || op.Sweep?
  }

  predicate ScanOp(op: Op) {
    op.ListKeys? || op.Consider? || op.Peek? || op.CheckMark? || op.MakeBatches?
  }

  /** The loop collects its snapshot or queues the batches made of it. */
  ghost predicate OnePhase(c: Config, ops: seq<Op>) {
    (forall op :: op in ops ==> ScanOp(op)) || (forall op :: op in ops ==> QueueOp(c, op))
  }

  ghost predicate LoopOk(c: Config, sh: Shared, th: Thread) {
    OnePhase(c, th.ops) && WellMarked(c, th.ops) &&
    (ListKeys in th.ops ==> |th.ops| == 1) &&
    (forall i :: 0 <= i < |th.ops| && th.ops[i].MakeBatches? ==> i == |th.ops| - 1) &&
    NoDup(Kept(th) + Ahead(th.ops)) &&
    (forall k :: k in Kept(th) + Ahead(th.ops) ==> k in sh.lru) &&
    (forall k :: k in Kept(th) ==> k !in HeldBy(sh, th.ops)) &&
    (forall op, k :: op in th.ops && op.Enqueue? && k in op.batch ==> k !in HeldBy(sh, th.ops))
  }

  /** No id is held twice, and with atomic marking every mark is held. */
  ghost predicate WellHeld(c: Config, s: State, q: Tid) {
    OwnersOk(Owners(s), Held(s, q)) && (c.atomicMark ==> Covered(Owners(s), s.sh.marks.Keys))
  }

  ghost predicate Inv(c: Config, s: State, q: Tid) {
    WellHeld(c, s, q) && s.sh.toDelete == {} && Held(s, q) <= s.sh.lru.Keys &&
    (forall ref :: ref in s.sh.queue ==> ref < s.sh.nextBatch) &&
    forall t :: t in s.threads ==>
      if t == q then LoopOk(c, s.sh, s.threads[t])
      else (forall op :: op in s.threads[t].ops ==> WorkerOp(op) && (op.Fetch? ==> |s.threads[t].ops| == 1))
  }

  /** The restricted use: `q` is the only enqueue loop, nothing is deleted or evicted, no mark is
      found expired, and each round's batches take ids of the snapshot, none of them twice. */
  ghost predicate Calm(c: Config, s: State, q: Tid, e: Event) {
    match e
    case Start(t, api) => (t == q <==> api.EnqueueBatches?) && !api.Delete? && !api.DeleteDelayed?
    case Act(t, choice) =>
      choice.victim == None &&
      (match Executes(s, e)
       case Some(CheckMark(id)) => !Expired(c, s.sh, id)
       case Some(MakeBatches) =>
         NoDup(Flat(choice.batches)) && forall k :: k in Flat(choice.batches) ==> k in s.threads[t].picked
       case _ => true)
    case Tick(_) => true
  }

  // ---- steps

  /** What the steps of other threads do to the structures that the enqueue loop relies on. */
  ghost predicate Grows(sh: Shared, sh': Shared) {
    sh.lru.Keys <= sh'.lru.Keys && forall k :: k in sh'.marks && k !in sh.marks ==> k !in sh.lru
  }

  lemma {:induction false} WorkerThread(c: Config, s: State, t: Tid, choice: Choice, q: Tid)
    requires CreatesMarked(c) && Inv(c, s, q) && t != q
    requires Enabled(c, s, Act(t, choice)) && Calm(c, s, q, Act(t, choice))
    ensures
      var ops' := Step(c, s, Act(t, choice)).threads[t].ops;
      forall op :: op in ops' ==> WorkerOp(op) && (op.Fetch? ==> |ops'| == 1)
  {
    var ops := s.threads[t].ops;
    var op, pushed := ops[0], Pushed(c, s.sh, s.threads[t].picked, ops[0], choice);
    assert op in ops && forall p :: p in ops[1..] ==> p in ops;
    if op.Fetch? { ScreenOwns(if choice.ref in s.sh.queue then s.sh.queue[choice.ref] else []); }
    if op.Call? && choice.answers.Some? { AnswerOpsKinds(choice.answers.value); }
    assert forall p :: p in pushed ==> WorkerOp(p) && !p.Fetch?;
    assert forall p :: p in pushed + ops[1..] ==> p in pushed || p in ops[1..];
  }

  lemma {:induction false} FetchOwners(c: Config, s: State, t: Tid, choice: Choice)
    requires Enabled(c, s, Act(t, choice)) && s.threads[t].ops == [Fetch]
    ensures
      var s' := Step(c, s, Act(t, choice));
      && s'.sh.marks == s.sh.marks
      && Owned(s', AtWorker(t)) == s.sh.queue[choice.ref] && Owned(s', InQueue(choice.ref)) == []
      && forall p :: p != AtWorker(t) && p != InQueue(choice.ref) ==> Owned(s', p) == Owned(s, p)
  {
    var s' := Step(c, s, Act(t, choice));
    var batch := s.sh.queue[choice.ref];
    assert s'.threads[t].ops == ScreenOps(batch) + [Call];
    ScreenOwns(batch);
    UnmarkAppend(ScreenOps(batch), [Call]);
    NoUnmarks([Call]);
  }

  lemma {:induction false} FetchHolds(c: Config, s: State, t: Tid, choice: Choice, q: Tid)
    requires WellHeld(c, s, q) && t != q && Enabled(c, s, Act(t, choice)) && s.threads[t].ops == [Fetch]
    ensures WellHeld(c, Step(c, s, Act(t, choice)), q)
  {
    var s' := Step(c, s, Act(t, choice));
    FetchOwners(c, s, t, choice);
    NoUnmarks([Fetch]);
    assert Held(s', q) == Held(s, q);
    MovedOwner(Owners(s), Owners(s'), Held(s, q), s.sh.marks.Keys, InQueue(choice.ref), AtWorker(t));
  }

  /** Every other operation of a worker leaves its list of ids to unmark alone, except Unmark. */
  lemma {:induction false} UnmarksAfter(c: Config, sh: Shared, picked: seq<Id>, ops: seq<Op>, choice: Choice)
    requires CreatesMarked(c) && ops != [] && WorkerOp(ops[0]) && !ops[0].Fetch?
    ensures UnmarkIds(Pushed(c, sh, picked, ops[0], choice) + ops[1..]) == UnmarkIds(ops[1..])
    ensures UnmarkIds(ops) == (if ops[0].Unmark? then [ops[0].id] else []) + UnmarkIds(ops[1..])
  {
    var pushed := Pushed(c, sh, picked, ops[0], choice);
    if ops[0].Call? && choice.answers.Some? { AnswerOpsKinds(choice.answers.value); }
    NoUnmarks(pushed);
    UnmarkAppend(pushed, ops[1..]);
  }

  lemma {:induction false} WorkerHolds(c: Config, s: State, t: Tid, choice: Choice, q: Tid)
    requires CreatesMarked(c) && WellHeld(c, s, q) && t != q && Enabled(c, s, Act(t, choice))
    requires WorkerOp(s.threads[t].ops[0]) && (s.threads[t].ops[0].Fetch? ==> s.threads[t].ops == [Fetch])
    requires Held(s, q) <= s.sh.lru.Keys && s.sh.nextBatch !in s.sh.queue
    ensures WellHeld(c, Step(c, s, Act(t, choice)), q)
  {
    hide Effect, Pushed, Picks, CanDo, OwnersOk, Covered, Leading, UnmarkIds;
    var op := s.threads[t].ops[0];
    if op.Fetch? {
      FetchHolds(c, s, t, choice, q);
    } else {
      WorkerOwners(c, s, t, choice);
      var s' := Step(c, s, Act(t, choice));
      SameLeading(c, s, t, choice, q);
      OwnersAfter(Owners(s), Owners(s'), Held(s, q), Held(s', q), s.sh.marks.Keys, s'.sh.marks.Keys, t,
                  s.sh.nextBatch, op, op.Lookup? && op.id !in s.sh.lru && c.syncOnCreate);
    }
  }

  lemma {:induction false} SameLeading(c: Config, s: State, t: Tid, choice: Choice, q: Tid)
    requires t != q && Enabled(c, s, Act(t, choice))
    ensures
      var s' := Step(c, s, Act(t, choice));
      Held(s', q) + s.sh.marks.Keys == Held(s, q) + s'.sh.marks.Keys
  {
    hide Effect, Pushed, Picks, CanDo, Leading;
  }

  lemma {:induction false} WorkerShared(c: Config, sh: Shared, t: Tid, op: Op, choice: Choice)
    requires CreatesMarked(c) && WorkerOp(op) && !op.Fetch?
    ensures
      var sh' := Effect(c, sh, t, op, choice);
      var creates := op.Lookup? && op.id !in sh.lru && c.syncOnCreate;
      && sh'.queue == (if creates then sh.queue[sh.nextBatch := [op.id]] else sh.queue)
      && sh'.marks.Keys ==
         if op.Unmark? then sh.marks.Keys - {op.id} else if creates then sh.marks.Keys + {op.id} else sh.marks.Keys
  {
  }

  lemma {:induction false} WorkerOwners(c: Config, s: State, t: Tid, choice: Choice)
    requires CreatesMarked(c) && Enabled(c, s, Act(t, choice))
    requires WorkerOp(s.threads[t].ops[0]) && !s.threads[t].ops[0].Fetch?
    ensures
      var s', op := Step(c, s, Act(t, choice)), s.threads[t].ops[0];
      var creates := op.Lookup? && op.id !in s.sh.lru && c.syncOnCreate;
      && (forall p :: p != AtWorker(t) && !(creates && p == InQueue(s.sh.nextBatch)) ==> Owned(s', p) == Owned(s, p))
      && (if op.Unmark? then Owned(s, AtWorker(t)) == [op.id] + Owned(s', AtWorker(t))
          else Owned(s', AtWorker(t)) == Owned(s, AtWorker(t)))
      && (creates ==> Owned(s', InQueue(s.sh.nextBatch)) == [op.id])
      && s'.sh.marks.Keys ==
         if op.Unmark? then s.sh.marks.Keys - {op.id}
         else if creates then s.sh.marks.Keys + {op.id} else s.sh.marks.Keys
  {
    hide Effect, Pushed, Picks, CanDo;
    UnmarksAfter(c, s.sh, s.threads[t].picked, s.threads[t].ops, choice);
    WorkerShared(c, s.sh, t, s.threads[t].ops[0], choice);
  }

  // ---- the enqueue loop

  lemma {:induction false} LoopLists(c: Config, sh: Shared, keys: seq<Id>)
    requires NoDup(keys) && forall k :: k in keys ==> k in sh.lru
    ensures LoopOk(c, sh, Thread(ConsiderOps(keys) + [MakeBatches], []))
  {
    var ops := ConsiderOps(keys) + [MakeBatches];
    ConsiderAhead(keys);
    AheadAppend(ConsiderOps(keys), [MakeBatches]);
    assert Ahead([MakeBatches]) == [];
    assert forall i :: 0 <= i < |keys| ==> ops[i] == Consider(keys[i]);
    NothingToMark(c, ops);
  }

  lemma {:induction false} LoopCuts(c: Config, sh: Shared, th: Thread, batches: seq<Batch>)
    requires LoopOk(c, sh, th) && th.ops == [MakeBatches]
    requires NoDup(Flat(batches)) && forall k :: k in Flat(batches) ==> k in th.picked
    ensures LoopOk(c, sh, Thread(EnqueueAllOps(c, batches), th.picked))
    ensures HeldBy(sh, EnqueueAllOps(c, batches)) == HeldBy(sh, th.ops)
  {
    hide EnqueueAllOps, Ahead, Flat, NoDup, WellMarked;
    EnqueueAhead(c, batches);
    assert MakeBatches in th.ops;
    var ops' := EnqueueAllOps(c, batches);
    assert Kept(Thread(ops', th.picked)) == [] && [] + Ahead(ops') == Ahead(ops');
    forall op, k | op in ops' && op.Enqueue? && k in op.batch ensures k !in sh.marks {
      AheadHasBatch(ops', op, k);
      assert k in Kept(th);
    }
    forall k | k in Ahead(ops') ensures k in sh.lru {
      assert k in Kept(th) + Ahead(th.ops);
    }
  }

  lemma {:induction false} LoopShape(c: Config, ops: seq<Op>, pushed: seq<Op>)
    requires ops != [] && ScanOp(ops[0]) && !ops[0].MakeBatches? && !ops[0].ListKeys?
    requires forall op :: op in pushed ==> op.Peek? || op.CheckMark?
    requires OnePhase(c, ops)
    requires ListKeys in ops ==> |ops| == 1
    requires forall i :: 0 <= i < |ops| && ops[i].MakeBatches? ==> i == |ops| - 1
    ensures
      var ops' := pushed + ops[1..];
      && (forall op :: op in ops' ==> ScanOp(op))
      && ListKeys !in ops'
      && (forall i :: 0 <= i < |ops'| && ops'[i].MakeBatches? ==> i == |ops'| - 1)
      && (MakeBatches in ops' <==> MakeBatches in ops)
  {
    var ops' := pushed + ops[1..];
    assert ops[0] in ops;
    assert forall op :: op in ops' <==> op in pushed || op in ops[1..];
    assert forall op :: op in ops <==> op == ops[0] || op in ops[1..];
    assert forall i :: 0 <= i < |pushed| ==> ops'[i] == pushed[i] && pushed[i] in pushed;
    forall i | 0 <= i < |ops'| && ops'[i].MakeBatches? ensures i == |ops'| - 1 {
      assert ops[i - |pushed| + 1] == ops'[i];
    }
  }

  /** Consider, Peek and CheckMark pass the id on, move it to the snapshot or drop it. */
  ghost predicate PassesOn(sh: Shared, th: Thread, pushed: seq<Op>, picked': seq<Id>) {
    th.ops != [] && (th.ops[0].Consider? || th.ops[0].Peek? || th.ops[0].CheckMark?) &&
    var id := th.ops[0].id;
    || (pushed in {[Peek(id)], [CheckMark(id)], []} && picked' == th.picked)
    || (pushed == [] && picked' == th.picked + [id] && id !in sh.marks)
  }

  /** No id is considered twice, whichever way the first one goes. */
  lemma {:induction false} LoopPassesOn(sh: Shared, th: Thread, pushed: seq<Op>, picked': seq<Id>)
    requires NoDup(Kept(th) + Ahead(th.ops)) && PassesOn(sh, th, pushed, picked')
    requires MakeBatches in pushed + th.ops[1..] <==> MakeBatches in th.ops
    ensures
      var all := Kept(th) + Ahead(th.ops);
      var all' := Kept(Thread(pushed + th.ops[1..], picked')) + Ahead(pushed + th.ops[1..]);
      NoDup(all') && (forall k :: k in all' ==> k in all)
  {
    hide NoDup, Kept;
    var id, rest := th.ops[0].id, th.ops[1..];
    var th' := Thread(pushed + rest, picked');
    var all, all' := Kept(th) + Ahead(th.ops), Kept(th') + Ahead(th'.ops);
    AheadAppend(pushed, rest);
    KeptAfter(th, th');
    assert Ahead(th.ops) == [id] + Ahead(rest);
    if pushed != [] {
      assert pushed[1..] == [] && Ahead(pushed) == [id];
      assert all' == all;
    } else if Kept(th') == Kept(th) {
      assert all == Kept(th) + ([id] + Ahead(rest)) && all' == Kept(th) + Ahead(rest);
      DropOne(Kept(th), id, Ahead(rest));
    } else {
      assert all' == all;
    }
  }

  lemma {:induction false} KeptAfter(th: Thread, th': Thread)
    requires MakeBatches in th'.ops <==> MakeBatches in th.ops
    ensures Kept(th') == Kept(th) || (Kept(th) == th.picked && Kept(th') == th'.picked)
    ensures th'.picked == th.picked ==> Kept(th') == Kept(th)
  {
  }

  lemma {:induction false} LoopScans(c: Config, sh: Shared, th: Thread, pushed: seq<Op>, picked': seq<Id>)
    requires LoopOk(c, sh, th) && PassesOn(sh, th, pushed, picked')
    ensures LoopOk(c, sh, Thread(pushed + th.ops[1..], picked'))
    ensures HeldBy(sh, pushed + th.ops[1..]) == HeldBy(sh, th.ops)
  {
    hide Ahead, NoDup;
    var th' := Thread(pushed + th.ops[1..], picked');
    assert th.ops[0] in th.ops;
    LoopShape(c, th.ops, pushed);
    LoopPassesOn(sh, th, pushed, picked');
    ScansLead(th.ops);
    ScansLead(th'.ops);
    NothingToMark(c, th'.ops);
    forall k | k in Kept(th') ensures k !in sh.marks {
      assert k in Kept(th) || k == th.ops[0].id;
    }
  }

  lemma {:induction false} LoopAdvances(c: Config, sh: Shared, th: Thread, choice: Choice, q: Tid)
    requires LoopOk(c, sh, th) && th.ops != [] && ScanOp(th.ops[0])
    requires CanDo(c, sh, q, th.ops[0], choice) && sh.toDelete == {}
    requires th.ops[0].CheckMark? ==> !Expired(c, sh, th.ops[0].id)
    requires th.ops[0].MakeBatches? ==>
      NoDup(Flat(choice.batches)) && forall k :: k in Flat(choice.batches) ==> k in th.picked
    ensures
      var ops' := Pushed(c, sh, th.picked, th.ops[0], choice) + th.ops[1..];
      LoopOk(c, sh, Thread(ops', Picks(sh, th.picked, th.ops[0]))) && HeldBy(sh, ops') == HeldBy(sh, th.ops)
    ensures Effect(c, sh, q, th.ops[0], choice) == sh
  {
    hide LoopOk, HeldBy;
    var op, pushed, rest := th.ops[0], Pushed(c, sh, th.picked, th.ops[0], choice), th.ops[1..];
    if op.ListKeys? {
      OnlyOp(c, sh, th);
      assert pushed + rest == pushed;
      LoopLists(c, sh, choice.keys);
      HeldBetween(sh, th.ops, pushed);
    } else if op.MakeBatches? {
      OnlyOp(c, sh, th);
      assert pushed + rest == pushed;
      LoopCuts(c, sh, th, choice.batches);
    } else {
      LoopScans(c, sh, th, pushed, Picks(sh, th.picked, op));
    }
  }

  lemma {:induction false} OnlyOp(c: Config, sh: Shared, th: Thread)
    requires LoopOk(c, sh, th) && th.ops != [] && (th.ops[0].ListKeys? || th.ops[0].MakeBatches?)
    ensures th.ops == [th.ops[0]]
  {
    assert th.ops[0] in th.ops;
  }

  lemma {:induction false} HeldBetween(sh: Shared, ops: seq<Op>, ops': seq<Op>)
    requires ops != [] && ops' != [] && !ops[0].Mark? && !ops'[0].Mark?
    ensures HeldBy(sh, ops') == HeldBy(sh, ops)
  {
  }

  lemma {:induction false} LoopOwners(s: State, s': State, q: Tid)
    requires q in s.threads && q in s'.threads && s'.threads == s.threads[q := s'.threads[q]]
    requires forall op: Op :: op in s.threads[q].ops || op in s'.threads[q].ops ==> !op.Unmark?
    ensures forall p: Place :: p.AtWorker? ==> Owned(s', p) == Owned(s, p)
  {
    NoUnmarks(s.threads[q].ops);
    NoUnmarks(s'.threads[q].ops);
  }

  /** Once a batch is queued, only batches and marks follow. */
  lemma {:induction false} LoopQueues(c: Config, sh: Shared, th: Thread)
    requires LoopOk(c, sh, th) && th.ops != [] && QueueOp(c, th.ops[0])
    ensures forall op: Op :: op in th.ops ==> QueueOp(c, op)
    ensures Kept(th) == [] && Kept(th.(ops := th.ops[1..])) == []
  {
    assert th.ops[0] in th.ops;
    assert forall p :: p in th.ops[1..] ==> p in th.ops;
  }

  lemma {:induction false} LoopBatchFresh(c: Config, sh: Shared, th: Thread)
    requires LoopOk(c, sh, th) && th.ops != [] && th.ops[0].Enqueue?
    ensures NoDup(th.ops[0].batch) && forall k :: k in th.ops[0].batch ==> k !in sh.marks && k in sh.lru
    ensures forall op, k :: op in th.ops[1..] && op.Enqueue? && k in op.batch ==> k !in th.ops[0].batch
    ensures NoDup(Ahead(th.ops[1..]))
  {
    hide NoDup, WellMarked, OnePhase, Leading, Kept;
    var batch, rest := th.ops[0].batch, Ahead(th.ops[1..]);
    assert th.ops[0] in th.ops;
    LoopQueues(c, sh, th);
    assert Kept(th) + Ahead(th.ops) == batch + rest;
    Separate(batch, rest);
    forall k | k in batch ensures k !in sh.marks && k in sh.lru {
      assert k in Kept(th) + Ahead(th.ops);
      assert k !in HeldBy(sh, th.ops);
    }
    forall op, k | op in th.ops[1..] && op.Enqueue? && k in op.batch ensures k !in batch {
      AheadHasBatch(th.ops[1..], op, k);
    }
  }

  /** The held ids after the loop has queued a batch, which it marks now or next. */
  lemma {:induction false} HeldAfterQueueing(c: Config, sh: Shared, th: Thread)
    requires LoopOk(c, sh, th) && th.ops != [] && th.ops[0].Enqueue?
    ensures
      var batch := th.ops[0].batch;
      HeldBy(Queued(c, sh, batch), th.ops[1..]) == HeldBy(sh, th.ops) + set k | k in batch
    ensures HeldBy(sh, th.ops) == sh.marks.Keys
    ensures c.atomicMark ==> Queued(c, sh, th.ops[0].batch).marks.Keys == sh.marks.Keys + set k | k in th.ops[0].batch
  {
    var batch := th.ops[0].batch;
    if c.atomicMark {
      assert Queued(c, sh, batch).marks.Keys == sh.marks.Keys + set k | k in batch;
    }
  }

  lemma {:induction false} LoopQueued(c: Config, sh: Shared, th: Thread)
    requires LoopOk(c, sh, th) && th.ops != [] && th.ops[0].Enqueue?
    ensures LoopOk(c, Queued(c, sh, th.ops[0].batch), Thread(th.ops[1..], th.picked))
  {
    hide NoDup, HeldBy, Queued;
    LoopBatchFresh(c, sh, th);
    LoopQueues(c, sh, th);
    HeldAfterQueueing(c, sh, th);
    var th' := Thread(th.ops[1..], th.picked);
    assert forall p :: p in th'.ops ==> p in th.ops;
    assert Kept(th') + Ahead(th'.ops) == Ahead(th'.ops);
    assert Queued(c, sh, th.ops[0].batch).lru == sh.lru by { QueuedKeepsItems(c, sh, th.ops[0].batch); }
  }

  lemma {:induction false} QueuedKeepsItems(c: Config, sh: Shared, batch: Batch)
    ensures Queued(c, sh, batch).lru == sh.lru && Queued(c, sh, batch).toDelete == sh.toDelete
  {
  }

  /** Marking an id that is held already changes nothing about what is held. */
  lemma {:induction false} LoopMarked(c: Config, sh: Shared, th: Thread)
    requires LoopOk(c, sh, th) && th.ops != [] && th.ops[0].Mark?
    ensures
      var sh', th' := sh.(marks := sh.marks[th.ops[0].id := sh.clock]), Thread(th.ops[1..], th.picked);
      LoopOk(c, sh', th') && HeldBy(sh', th'.ops) == HeldBy(sh, th.ops)
  {
    hide NoDup, HeldBy;
    assert th.ops[0] in th.ops;
    LoopQueues(c, sh, th);
    var sh', th' := sh.(marks := sh.marks[th.ops[0].id := sh.clock]), Thread(th.ops[1..], th.picked);
    HeldAfterMarking(sh, th.ops);
    assert forall p :: p in th'.ops ==> p in th.ops;
    assert Ahead(th.ops) == [] + Ahead(th'.ops) == Ahead(th'.ops);
    assert Kept(th) + Ahead(th.ops) == Kept(th') + Ahead(th'.ops);
    assert |th.ops| > 1 ==> ListKeys !in th.ops;
    forall i | 0 <= i < |th'.ops| && th'.ops[i].MakeBatches? ensures i == |th'.ops| - 1 {
      assert th.ops[i + 1] == th'.ops[i];
    }
  }

  lemma {:induction false} HeldAfterMarking(sh: Shared, ops: seq<Op>)
    requires ops != [] && ops[0].Mark?
    ensures HeldBy(sh.(marks := sh.marks[ops[0].id := sh.clock]), ops[1..]) == HeldBy(sh, ops)
  {
    assert Leading(ops) == [ops[0].id] + Leading(ops[1..]);
  }

  lemma {:induction false} LoopUndisturbed(c: Config, sh: Shared, sh': Shared, th: Thread)
    requires LoopOk(c, sh, th) && Grows(sh, sh')
    ensures LoopOk(c, sh', th)
  {
    hide WellMarked, OnePhase, NoDup;
    forall k | k in HeldBy(sh', th.ops) ensures k in HeldBy(sh, th.ops) || k !in sh.lru {}
    forall op, k | op in th.ops && op.Enqueue? && k in op.batch ensures k !in HeldBy(sh', th.ops) {
      AheadHasBatch(th.ops, op, k);
      assert k in Kept(th) + Ahead(th.ops);
    }
    forall k | k in Kept(th) ensures k !in HeldBy(sh', th.ops) {
      assert k in Kept(th) + Ahead(th.ops);
    }
  }

  // ---- every step and every run

  lemma {:induction false} LoopEnqueues(c: Config, s: State, choice: Choice, q: Tid)
    requires Inv(c, s, q) && Enabled(c, s, Act(q, choice)) && s.threads[q].ops[0].Enqueue?
    ensures Inv(c, Step(c, s, Act(q, choice)), q)
  {
    hide OwnersOk, Covered, LoopOk, HeldBy;
    var s', th := Step(c, s, Act(q, choice)), s.threads[q];
    assert [] + th.ops[1..] == th.ops[1..];
    assert forall op :: op in th.ops[1..] ==> op in th.ops;
    assert s' == State(Queued(c, s.sh, th.ops[0].batch), s.threads[q := Thread(th.ops[1..], th.picked)]);
    LoopBatchFresh(c, s.sh, th);
    LoopQueues(c, s.sh, th);
    LoopQueued(c, s.sh, th);
    HeldAfterQueueing(c, s.sh, th);
    LoopOwners(s, s', q);
    NewOwner(Owners(s), Owners(s'), Held(s, q), s.sh.marks.Keys, InQueue(s.sh.nextBatch), th.ops[0].batch);
  }

  lemma {:induction false} LoopMarks(c: Config, s: State, choice: Choice, q: Tid)
    requires Inv(c, s, q) && Enabled(c, s, Act(q, choice)) && s.threads[q].ops[0].Mark?
    ensures Inv(c, Step(c, s, Act(q, choice)), q)
  {
    hide OwnersOk, Covered, LoopOk, HeldBy;
    var s', th := Step(c, s, Act(q, choice)), s.threads[q];
    assert [] + th.ops[1..] == th.ops[1..];
    assert forall op :: op in th.ops[1..] ==> op in th.ops;
    LoopMarkSwitch(c, s.sh, th);
    LoopMarked(c, s.sh, th);
    LoopQueues(c, s.sh, th);
    LoopOwners(s, s', q);
    SameOwners(Owners(s), Owners(s'), Held(s, q), s.sh.marks.Keys);
  }

  lemma {:induction false} LoopMarkSwitch(c: Config, sh: Shared, th: Thread)
    requires LoopOk(c, sh, th) && th.ops != [] && th.ops[0].Mark?
    ensures !c.atomicMark
  {
    assert th.ops[0] in th.ops;
  }

  lemma {:induction false} LoopKeepsInv(c: Config, s: State, s': State, q: Tid)
    requires Inv(c, s, q) && q in s.threads && q in s'.threads && s' == State(s.sh, s.threads[q := s'.threads[q]])
    requires LoopOk(c, s.sh, s'.threads[q]) && HeldBy(s.sh, s'.threads[q].ops) == HeldBy(s.sh, s.threads[q].ops)
    ensures Inv(c, s', q)
  {
    hide OwnersOk, Covered, HeldBy;
    LoopOwners(s, s', q);
    SameOwners(Owners(s), Owners(s'), Held(s, q), s.sh.marks.Keys);
  }

  lemma {:induction false} LoopActs(c: Config, s: State, choice: Choice, q: Tid)
    requires Inv(c, s, q) && Enabled(c, s, Act(q, choice)) && Calm(c, s, q, Act(q, choice))
    ensures Inv(c, Step(c, s, Act(q, choice)), q)
  {
    assert s.threads[q].ops[0] in s.threads[q].ops;
    if s.threads[q].ops[0].Enqueue? {
      LoopEnqueues(c, s, choice, q);
    } else if s.threads[q].ops[0].Mark? {
      LoopMarks(c, s, choice, q);
    } else {
      LoopAdvances(c, s.sh, s.threads[q], choice, q);
      LoopKeepsInv(c, s, Step(c, s, Act(q, choice)), q);
    }
  }

  /** What the other threads leave to the enqueue loop. */
  lemma {:induction false} WorkerGrows(c: Config, s: State, t: Tid, choice: Choice, q: Tid)
    requires CreatesMarked(c) && Enabled(c, s, Act(t, choice)) && Calm(c, s, q, Act(t, choice))
    requires WorkerOp(s.threads[t].ops[0]) && s.sh.toDelete == {}
    requires forall ref :: ref in s.sh.queue ==> ref < s.sh.nextBatch
    ensures
      var sh' := Step(c, s, Act(t, choice)).sh;
      && Grows(s.sh, sh') && sh'.toDelete == {} && forall ref :: ref in sh'.queue ==> ref < sh'.nextBatch
    ensures
      var sh' := Step(c, s, Act(t, choice)).sh;
      forall k :: k in sh'.marks && k !in s.sh.marks ==> k in sh'.lru
  {
  }

  lemma {:induction false} WorkerActs(c: Config, s: State, t: Tid, choice: Choice, q: Tid)
    requires CreatesMarked(c) && Inv(c, s, q) && t != q
    requires Enabled(c, s, Act(t, choice)) && Calm(c, s, q, Act(t, choice))
    ensures Inv(c, Step(c, s, Act(t, choice)), q)
  {
    hide Effect, Pushed, Picks, LoopOk, OwnersOk, Covered, Leading;
    var s' := Step(c, s, Act(t, choice));
    assert s.threads[t].ops[0] in s.threads[t].ops;
    WorkerThread(c, s, t, choice, q);
    WorkerHolds(c, s, t, choice, q);
    WorkerGrows(c, s, t, choice, q);
    if q in s.threads { LoopUndisturbed(c, s.sh, s'.sh, s.threads[q]); }
  }

  lemma {:induction false} LoopStarts(c: Config, sh: Shared)
    ensures LoopOk(c, sh, Thread([ListKeys], [])) && HeldBy(sh, [ListKeys]) == HeldBy(sh, []) == sh.marks.Keys
  {
    assert [ListKeys][1..] == [];
  }

  lemma {:induction false} StartsPlain(api: Api)
    requires !api.Delete? && !api.DeleteDelayed?
    ensures UnmarkIds(Program(api)) == UnmarkIds([]) == []
    ensures if api.EnqueueBatches? then Program(api) == [ListKeys]
      else forall op :: op in Program(api) ==> WorkerOp(op) && (op.Fetch? ==> |Program(api)| == 1)
  {
    NoUnmarks(Program(api));
  }

  lemma {:induction false} StartKeepsInv(c: Config, s: State, t: Tid, api: Api, q: Tid)
    requires Inv(c, s, q) && Enabled(c, s, Start(t, api)) && Calm(c, s, q, Start(t, api))
    ensures Inv(c, Step(c, s, Start(t, api)), q)
  {
    hide OwnersOk, Covered, LoopOk, Program, HeldBy;
    var s' := Step(c, s, Start(t, api));
    StartsPlain(api);
    assert forall p :: Owners(s')(p) == Owners(s)(p);
    LoopStarts(c, s.sh);
    SameOwners(Owners(s), Owners(s'), Held(s, q), s.sh.marks.Keys);
  }

  lemma {:induction false} StepKeepsInv(c: Config, s: State, e: Event, q: Tid)
    requires CreatesMarked(c) && Inv(c, s, q) && Enabled(c, s, e) && Calm(c, s, q, e)
    ensures Inv(c, Step(c, s, e), q)
  {
    match e
    case Start(t, api) => StartKeepsInv(c, s, t, api, q);
    case Tick(_) => SameOwners(Owners(s), Owners(Step(c, s, e)), Held(s, q), s.sh.marks.Keys);
    case Act(t, choice) => if t == q { LoopActs(c, s, choice, q); } else { WorkerActs(c, s, t, choice, q); }
  }

  ghost function CalmRule(c: Config, q: Tid): (State, Event) -> bool {
    (s: State, e: Event) => Calm(c, s, q, e)
  }

  ghost predicate CalmRun(c: Config, s: State, q: Tid, es: seq<Event>)
    requires Run(c, s, es)
  {
    Obeys(c, s, es, CalmRule(c, q))
  }

  lemma {:induction false} RunKeepsInv(c: Config, s: State, q: Tid, es: seq<Event>)
    requires CreatesMarked(c) && Inv(c, s, q) && Run(c, s, es) && CalmRun(c, s, q, es)
    ensures Inv(c, Final(c, s, es), q)
    decreases |es|
  {
    if es != [] {
      StepKeepsInv(c, s, es[0], q);
      RunKeepsInv(c, Step(c, s, es[0]), q, es[1..]);
    }
  }

  /** No id sits twice in the queued batches, neither twice in one batch nor in two batches. */
  ghost predicate Apart(queue: map<nat, Batch>) {
    (forall ref :: ref in queue ==> NoDup(queue[ref])) &&
    (forall i, j, k :: i in queue && j in queue && k in queue[i] && k in queue[j] ==> i == j)
  }

  /** And every id of a queued batch is marked. As soon as no worker is in the middle of unmarking a
      batch, the marked ids are exactly the queued ones. */
  ghost predicate Agree(s: State) {
    var queue := s.sh.queue;
    && Apart(queue)
    && (forall ref, k :: ref in queue && k in queue[ref] ==> k in s.sh.marks)
    && ((forall t :: t in s.threads ==> UnmarkIds(s.threads[t].ops) == []) ==>
        forall k :: k in s.sh.marks <==> exists ref :: ref in queue && k in queue[ref])
  }

  lemma {:induction false} OwnersAreApart(s: State, held: set<Id>)
    requires OwnersOk(Owners(s), held)
    ensures Apart(s.sh.queue)
  {
    var own := Owners(s);
    assert forall ref :: ref in s.sh.queue ==> own(InQueue(ref)) == s.sh.queue[ref];
    forall i, j, k | i in s.sh.queue && j in s.sh.queue && k in s.sh.queue[i] && k in s.sh.queue[j]
      ensures i == j
    {
      assert k in own(InQueue(i)) && k in own(InQueue(j));
    }
  }

  lemma {:induction false} OwnersAgree(s: State)
    requires OwnersOk(Owners(s), s.sh.marks.Keys) && Covered(Owners(s), s.sh.marks.Keys)
    ensures Agree(s)
  {
    var own := Owners(s);
    OwnersAreApart(s, s.sh.marks.Keys);
    assert forall ref :: ref in s.sh.queue ==> own(InQueue(ref)) == s.sh.queue[ref];
    forall k | (forall t :: t in s.threads ==> UnmarkIds(s.threads[t].ops) == []) && k in s.sh.marks
      ensures exists ref :: ref in s.sh.queue && k in s.sh.queue[ref]
    {
      var p :| k in own(p);
      assert p.InQueue? && p.ref in s.sh.queue;
    }
  }

  lemma {:induction false} InitHolds(c: Config, s0: State, q: Tid)
    requires Init(s0)
    ensures Inv(c, s0, q)
  {
    assert forall p :: Owners(s0)(p) == [];
  }

  /** The queued batches are apart in every state of every calm run. */
  lemma {:induction false} QueueStaysApart(c: Config, s0: State, q: Tid, es: seq<Event>)
    requires CreatesMarked(c) && Init(s0) && Run(c, s0, es) && CalmRun(c, s0, q, es)
    ensures Apart(Final(c, s0, es).sh.queue)
  {
    InitHolds(c, s0, q);
    RunKeepsInv(c, s0, q, es);
    OwnersAreApart(Final(c, s0, es), Held(Final(c, s0, es), q));
  }

  /** Queue and marks agree in every state of every calm run. */
  lemma {:induction false} QueueAndMarksAgree(c: Config, s0: State, q: Tid, es: seq<Event>)
    requires CreatesMarked(c) && c.atomicMark && Init(s0) && Run(c, s0, es) && CalmRun(c, s0, q, es)
    ensures Agree(Final(c, s0, es))
  {
    InitHolds(c, s0, q);
    RunKeepsInv(c, s0, q, es);
    var s := Final(c, s0, es);
    if q in s.threads { ScansLead(s.threads[q].ops); }
    assert Held(s, q) == s.sh.marks.Keys;
    OwnersAgree(s);
  }
}

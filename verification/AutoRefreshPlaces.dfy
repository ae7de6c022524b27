/** Where the ids of the auto-refresh cache are while they are being processed, in a queued batch or with a
    worker that has not unmarked them yet, and which ids a list of operations is going to queue, mark
    and unmark. */
module AutoRefreshPlaces {
  import opened AutoRefreshMachine

  /** Where a batch can be: waiting in the queue, or with a worker that has not unmarked all of it. */
  datatype Place = InQueue(ref: nat) | AtWorker(t: Tid)

  ghost function UnmarkIds(ops: seq<Op>): seq<Id>
    decreases |ops|
  {
    if ops == [] then []
    else (if ops[0].Unmark? then [ops[0].id] else []) + UnmarkIds(ops[1..])
  }

  /** Every place holds ids of `held`, and no id is held twice. */
  ghost predicate OwnersOk(own: Place -> seq<Id>, held: set<Id>) {
    (forall p :: NoDup(own(p))) &&
    (forall p, r, k :: k in own(p) && k in own(r) ==> p == r) &&
    (forall p, k :: k in own(p) ==> k in held)
  }

  /** Every mark belongs to a place. */
  ghost predicate Covered(own: Place -> seq<Id>, marks: set<Id>) {
    forall k :: k in marks ==> exists p :: k in own(p)
  }

  /** The ids of the batch that the enqueue loop has just queued and is still marking. */
  ghost function Leading(ops: seq<Op>): seq<Id>
    decreases |ops|
  {
    if ops == [] || !ops[0].Mark? then [] else [ops[0].id] + Leading(ops[1..])
  }

  ghost function Flat(batches: seq<Batch>): seq<Id> {
    if batches == [] then [] else batches[0] + Flat(batches[1..])
  }

  /** The ids that the enqueue loop may still queue in this round. */
  ghost function Ahead(ops: seq<Op>): seq<Id>
    decreases |ops|
  {
    if ops == [] then [] else AheadOf(ops[0]) + Ahead(ops[1..])
  }

  ghost function AheadOf(op: Op): seq<Id> {
    if op.Consider? || op.Peek? || op.CheckMark? then [op.id] else if op.Enqueue? then op.batch else []
  }

  predicate QueueOp(c: Config, op: Op) {
    op.Enqueue? || (op.Mark? && !c.atomicMark)
  }

  /** The marking of each batch follows its queueing, unless the queueing does both. */
  ghost predicate WellMarked(c: Config, ops: seq<Op>)
    decreases |ops|
  {
    ops != [] ==>
      (ops[0].Enqueue? ==> Leading(ops[1..]) == if c.atomicMark then [] else ops[0].batch) && WellMarked(c, ops[1..])
  }

  // ---- lists of operations

  lemma {:induction false} UnmarkAppend(a: seq<Op>, b: seq<Op>)
    ensures UnmarkIds(a + b) == UnmarkIds(a) + UnmarkIds(b)
    decreases |a|
  {
    if a == [] {
      assert a + b == b;
    } else {
      assert (a + b)[0] == a[0] && (a + b)[1..] == a[1..] + b;
      UnmarkAppend(a[1..], b);
    }
  }

  lemma {:induction false} NoUnmarks(ops: seq<Op>)
    requires forall op :: op in ops ==> !op.Unmark?
    ensures UnmarkIds(ops) == []
    decreases |ops|
  {
    if ops != [] {
      assert ops[0] in ops;
      NoUnmarks(ops[1..]);
    }
  }

  lemma {:induction false} AheadAppend(a: seq<Op>, b: seq<Op>)
    ensures Ahead(a + b) == Ahead(a) + Ahead(b)
    decreases |a|
  {
    if a == [] {
      assert a + b == b;
    } else {
      assert (a + b)[0] == a[0] && (a + b)[1..] == a[1..] + b;
      AheadAppend(a[1..], b);
    }
  }

  lemma {:induction false} AheadHasBatch(ops: seq<Op>, op: Op, k: Id)
    requires op in ops && op.Enqueue? && k in op.batch
    ensures k in Ahead(ops)
    decreases |ops|
  {
    if ops[0] != op { AheadHasBatch(ops[1..], op, k); }
  }

  lemma {:induction false} ScreenOwns(batch: Batch)
    ensures UnmarkIds(ScreenOps(batch)) == batch
    ensures forall op :: op in ScreenOps(batch) ==> op.Unmark? || op.Screen?
    decreases |batch|
  {
    if batch != [] {
      var two := [Unmark(batch[0]), Screen(batch[0])];
      OneUnmark(batch[0]);
      ScreenOwns(batch[1..]);
      UnmarkAppend(two, ScreenOps(batch[1..]));
      assert ScreenOps(batch) == two + ScreenOps(batch[1..]);
      assert batch == [batch[0]] + batch[1..];
    }
  }

  lemma {:induction false} OneUnmark(id: Id)
    ensures UnmarkIds([Unmark(id), Screen(id)]) == [id]
  {
    var two := [Unmark(id), Screen(id)];
    assert two[1..] == [Screen(id)] && two[1..][1..] == [];
    assert UnmarkIds(two[1..]) == [];
  }

  lemma {:induction false} ConsiderAhead(keys: seq<Id>)
    ensures Ahead(ConsiderOps(keys)) == keys
    decreases |keys|
  {
    if keys != [] {
      var ops := ConsiderOps(keys);
      assert ops[1..] == ConsiderOps(keys[1..]);
      ConsiderAhead(keys[1..]);
    }
  }

  lemma {:induction false} MarkOpsAre(c: Config, ids: seq<Id>, rest: seq<Op>)
    ensures Leading(MarkOps(ids) + rest) == ids + Leading(rest) && Ahead(MarkOps(ids) + rest) == Ahead(rest)
    ensures WellMarked(c, rest) ==> WellMarked(c, MarkOps(ids) + rest)
    decreases |ids|
  {
    var ops := MarkOps(ids) + rest;
    if ids == [] {
      assert ops == rest;
    } else {
      assert ops[0] == Mark(ids[0]) && ops[1..] == MarkOps(ids[1..]) + rest;
      MarkOpsAre(c, ids[1..], rest);
      assert [ids[0]] + (ids[1..] + Leading(rest)) == ids + Leading(rest);
    }
  }

  /** A batch and its marks in front of other batches and marks. */
  lemma {:induction false} EnqueueFirst(c: Config, batch: Batch, rest: seq<Op>)
    requires Leading(rest) == [] && WellMarked(c, rest)
    ensures
      var ops := EnqueueOps(c, batch) + rest;
      Ahead(ops) == batch + Ahead(rest) && Leading(ops) == [] && WellMarked(c, ops)
  {
    var ops := EnqueueOps(c, batch) + rest;
    MarkOpsAre(c, batch, rest);
    assert batch + Leading(rest) == batch;
    assert ops[0] == Enqueue(batch);
    assert ops[1..] == if c.atomicMark then rest else MarkOps(batch) + rest;
  }

  lemma {:induction false} EnqueueAhead(c: Config, batches: seq<Batch>)
    ensures
      var ops := EnqueueAllOps(c, batches);
      Ahead(ops) == Flat(batches) && Leading(ops) == [] && WellMarked(c, ops) &&
      forall op :: op in ops ==> QueueOp(c, op)
    decreases |batches|
  {
    hide EnqueueOps;
    if batches != [] {
      EnqueueAhead(c, batches[1..]);
      EnqueueFirst(c, batches[0], EnqueueAllOps(c, batches[1..]));
      QueueOps(c, batches[0]);
    }
  }

  lemma {:induction false} QueueOps(c: Config, batch: Batch)
    ensures forall op :: op in EnqueueOps(c, batch) ==> QueueOp(c, op)
  {
  }

  lemma {:induction false} ScansLead(ops: seq<Op>)
    requires forall op :: op in ops ==> !op.Mark?
    ensures Leading(ops) == []
  {
  }

  lemma {:induction false} NothingToMark(c: Config, ops: seq<Op>)
    requires forall op :: op in ops ==> !op.Enqueue?
    ensures WellMarked(c, ops)
    decreases |ops|
  {
    if ops != [] {
      assert ops[0] in ops;
      NothingToMark(c, ops[1..]);
    }
  }

  // ---- ownership

  lemma {:induction false} SameOwners(own: Place -> seq<Id>, own': Place -> seq<Id>, held: set<Id>, marks: set<Id>)
    requires OwnersOk(own, held)
    requires forall p :: own'(p) == own(p)
    ensures OwnersOk(own', held) && (Covered(own, marks) ==> Covered(own', marks))
  {
    forall k | Covered(own, marks) && k in marks ensures exists p :: k in own'(p) {
      var p :| k in own(p);
      assert k in own'(p);
    }
  }

  lemma {:induction false} MovedOwner(own: Place -> seq<Id>, own': Place -> seq<Id>, held: set<Id>, marks: set<Id>,
        a: Place, b: Place)
    requires OwnersOk(own, held) && a != b
    requires own(b) == [] && own'(a) == [] && own'(b) == own(a)
    requires forall p :: p != a && p != b ==> own'(p) == own(p)
    ensures OwnersOk(own', held) && (Covered(own, marks) ==> Covered(own', marks))
  {
    forall k | Covered(own, marks) && k in marks ensures exists p :: k in own'(p) {
      var p :| k in own(p);
      assert k in own'(if p == a then b else p);
    }
  }

  lemma {:induction false} DropOne(a: seq<Id>, x: Id, b: seq<Id>)
    requires NoDup(a + ([x] + b))
    ensures NoDup(a + b) && x !in a + b
  {
    var all, less := a + ([x] + b), a + b;
    assert all[|a|] == x;
    assert forall i :: 0 <= i < |less| ==> less[i] == all[if i < |a| then i else i + 1];
  }

  lemma {:induction false} ReleasedHead(own: Place -> seq<Id>, own': Place -> seq<Id>, held: set<Id>, marks: set<Id>,
        a: Place, id: Id)
    requires OwnersOk(own, held) && own(a) == [id] + own'(a)
    requires forall p :: p != a ==> own'(p) == own(p)
    ensures OwnersOk(own', held - {id}) && (Covered(own, marks) ==> Covered(own', marks - {id}))
  {
    assert [] + own'(a) == own'(a) && [] + ([id] + own'(a)) == own(a);
    DropOne([], id, own'(a));
    assert id in own(a);
    forall p, k | k in own'(p) ensures k in own(p) && k != id {
      if p == a { assert k in own(a); }
    }
    forall k | Covered(own, marks) && k in marks - {id} ensures exists p :: k in own'(p) {
      var p :| k in own(p);
      assert k in own'(p);
    }
  }

  lemma {:induction false} NewOwner(own: Place -> seq<Id>, own': Place -> seq<Id>, held: set<Id>, marks: set<Id>,
        a: Place, batch: Batch)
    requires OwnersOk(own, held) && own(a) == [] && own'(a) == batch && NoDup(batch)
    requires forall k :: k in batch ==> k !in held
    requires forall p :: p != a ==> own'(p) == own(p)
    ensures OwnersOk(own', held + set k | k in batch)
    ensures Covered(own, marks) ==> Covered(own', marks + set k | k in batch)
  {
    forall k | Covered(own, marks) && (k in marks || k in batch) ensures exists p :: k in own'(p) {
      if k in batch {
        assert k in own'(a);
      } else {
        var p :| k in own(p);
        assert k in own'(p);
      }
    }
  }

  lemma {:induction false} Separate(a: seq<Id>, b: seq<Id>)
    requires NoDup(a + b)
    ensures NoDup(a) && NoDup(b) && forall k :: k in a ==> k !in b
  {
    var all := a + b;
    assert forall i :: 0 <= i < |a| ==> all[i] == a[i];
    assert forall i :: 0 <= i < |b| ==> all[|a| + i] == b[i];
  }

  lemma {:induction false} Wider(own: Place -> seq<Id>, held: set<Id>, held': set<Id>)
    requires OwnersOk(own, held) && held <= held'
    ensures OwnersOk(own, held')
  {
  }

  lemma {:induction false} OwnersAfter(own: Place -> seq<Id>, own': Place -> seq<Id>, held: set<Id>, held': set<Id>,
        marks: set<Id>, marks': set<Id>, t: Tid, next: nat, op: Op, creates: bool)
    requires OwnersOk(own, held)
    requires creates ==> op.Lookup? && own(InQueue(next)) == [] && own'(InQueue(next)) == [op.id] && op.id !in held
    requires forall p :: p != AtWorker(t) && !(creates && p == InQueue(next)) ==> own'(p) == own(p)
    requires own(AtWorker(t)) == (if op.Unmark? then [op.id] else []) + own'(AtWorker(t))
    requires marks' == if op.Unmark? then marks - {op.id} else if creates then marks + {op.id} else marks
    requires held' >= if op.Unmark? then held - {op.id} else if creates then held + {op.id} else held
    ensures OwnersOk(own', held') && (Covered(own, marks) ==> Covered(own', marks'))
  {
    hide OwnersOk, Covered;
    if op.Unmark? {
      ReleasedHead(own, own', held, marks, AtWorker(t), op.id);
      Wider(own', held - {op.id}, held');
    } else if creates {
      NewOwner(own, own', held, marks, InQueue(next), [op.id]);
      assert (set k | k in [op.id]) == {op.id};
      Wider(own', held + {op.id}, held');
    } else {
      SameOwners(own, own', held, marks);
      Wider(own', held, held');
    }
  }
}

/** The documented use of GetOrCreate: each id is created at most once. */
module AutoRefreshOnce {
  import opened AutoRefreshMachine
  import Terminal = AutoRefreshTerminal

  predicate Creation(e: Event) {
    e.Start? && e.api.GetOrCreate?
  }

  /** No id is passed to GetOrCreate twice. */
  ghost predicate CreatesOnce(es: seq<Event>) {
    forall i, j :: 0 <= i < j < |es| && Creation(es[i]) && Creation(es[j]) ==> es[i].api.id != es[j].api.id
  }

  /** And none of these ids was created earlier. */
  ghost predicate CreatesNew(es: seq<Event>, made: set<Id>) {
    CreatesOnce(es) && forall i :: 0 <= i < |es| && Creation(es[i]) ==> es[i].api.id !in made
  }

  function MadeBy(e: Event): set<Id> {
    if Creation(e) then {e.api.id} else {}
  }

  ghost function Made(es: seq<Event>): set<Id>
    decreases |es|
  {
    if es == [] then {} else MadeBy(es[0]) + Made(es[1..])
  }

  lemma {:induction false} NewTail(es: seq<Event>, made: set<Id>)
    requires es != [] && CreatesNew(es, made)
    ensures MadeBy(es[0]) !! made && CreatesNew(es[1..], made + MadeBy(es[0]))
  {
    forall i | 0 <= i < |es[1..]| && Creation(es[1..][i]) ensures es[1..][i].api.id !in made + MadeBy(es[0]) {
      assert es[1..][i] == es[i + 1];
    }
    forall i, j | 0 <= i < j < |es[1..]| && Creation(es[1..][i]) && Creation(es[1..][j])
      ensures es[1..][i].api.id != es[1..][j].api.id
    {
      assert es[1..][i] == es[i + 1] && es[1..][j] == es[j + 1];
    }
  }

  lemma {:induction false} MadeAre(es: seq<Event>, k: Id)
    ensures k in Made(es) <==> exists i :: 0 <= i < |es| && Creation(es[i]) && es[i].api.id == k
    decreases |es|
  {
    if es != [] {
      MadeAre(es[1..], k);
      assert forall i :: 0 < i < |es| ==> es[i] == es[1..][i - 1];
      if k in Made(es[1..]) {
        var i :| 0 <= i < |es[1..]| && Creation(es[1..][i]) && es[1..][i].api.id == k;
        assert es[i + 1] == es[1..][i];
      }
    }
  }

  /** The second half of a run creates what the first half did not. */
  lemma {:induction false} NewHalf(before: seq<Event>, after: seq<Event>)
    requires CreatesOnce(before + after)
    ensures CreatesNew(before, {}) && CreatesNew(after, Made(before))
  {
    var es := before + after;
    assert forall i :: 0 <= i < |before| ==> es[i] == before[i];
    assert forall i :: 0 <= i < |after| ==> es[|before| + i] == after[i];
    forall j | 0 <= j < |after| && Creation(after[j]) ensures after[j].api.id !in Made(before) {
      MadeAre(before, after[j].api.id);
    }
  }

  // ---- the invariant

  predicate CreatingOp(op: Op) {
    op.Lookup? || op.AddNew?
  }

  /** Thread `t` is in the middle of creating `k`. */
  ghost predicate Creating(s: State, t: Tid, k: Id) {
    t in s.threads && s.threads[t].ops != [] && CreatingOp(s.threads[t].ops[0]) && s.threads[t].ops[0].id == k
  }

  /** The creation of `k` was begun and is over. */
  ghost predicate Over(s: State, made: set<Id>, k: Id) {
    k in made && forall t :: !Creating(s, t, k)
  }

  ghost predicate Inv(s: State, made: set<Id>) {
    (forall k :: k in s.sh.lru ==> Over(s, made, k)) &&
    (forall t, op :: t in s.threads && op in s.threads[t].ops && op.Put? ==> Over(s, made, op.id)) &&
    (forall t, u, k :: Creating(s, t, k) && Creating(s, u, k) ==> t == u) &&
    (forall t, k :: Creating(s, t, k) ==> k in made) &&
    (forall t, op :: t in s.threads && s.threads[t].ops != [] && op in s.threads[t].ops[1..] ==> !CreatingOp(op))
  }

  /** What the acting thread does to the creations. */
  lemma {:induction false} ActCreating(c: Config, s: State, made: set<Id>, t: Tid, choice: Choice, k: Id)
    requires Inv(s, made) && Enabled(c, s, Act(t, choice))
    ensures
      var s' := Step(c, s, Act(t, choice));
      (forall u :: Creating(s', u, k) ==> Creating(s, u, k)) &&
      (k in s'.sh.lru && k !in s.sh.lru && !s.threads[t].ops[0].Put? ==> Creating(s, t, k) && !Creating(s', t, k))
  {
    var ops := s.threads[t].ops;
    var s' := Step(c, s, Act(t, choice));
    var pushed := Pushed(c, s.sh, s.threads[t].picked, ops[0], choice);
    var ops' := pushed + ops[1..];
    PushedFollows(c, s.sh, s.threads[t].picked, ops[0], choice);
    assert pushed == [] && ops[1..] != [] ==> ops'[0] in ops[1..];
    assert pushed != [] ==> ops'[0] in pushed;
    if k in s'.sh.lru { Terminal.EffectOnEntry(c, s.sh, t, ops[0], choice, k); }
  }

  lemma {:induction false} ActPuts(c: Config, s: State, made: set<Id>, t: Tid, choice: Choice, u: Tid, op: Op)
    requires Inv(s, made) && Enabled(c, s, Act(t, choice))
    requires var s' := Step(c, s, Act(t, choice)); u in s'.threads && op in s'.threads[u].ops && op.Put?
    ensures Over(s, made, op.id)
  {
    var ops := s.threads[t].ops;
    var pushed := Pushed(c, s.sh, s.threads[t].picked, ops[0], choice);
    PushedFollows(c, s.sh, s.threads[t].picked, ops[0], choice);
    assert forall p :: p in ops[1..] ==> p in ops;
    if u == t { assert op in pushed || op in ops[1..]; }
  }

  lemma {:induction false} ActRests(c: Config, s: State, made: set<Id>, t: Tid, choice: Choice, u: Tid, op: Op)
    requires Inv(s, made) && Enabled(c, s, Act(t, choice))
    requires var s' := Step(c, s, Act(t, choice));
      u in s'.threads && s'.threads[u].ops != [] && op in s'.threads[u].ops[1..]
    ensures !CreatingOp(op)
  {
    if u == t {
      var ops := s.threads[t].ops;
      var pushed := Pushed(c, s.sh, s.threads[t].picked, ops[0], choice);
      var ops' := pushed + ops[1..];
      if pushed == [] {
        assert ops' == ops[1..] && forall p :: p in ops'[1..] ==> p in ops';
      } else {
        PushedRest(c, s.sh, s.threads[t].picked, ops[0], choice);
        assert ops'[1..] == pushed[1..] + ops[1..];
      }
    }
  }

  lemma {:induction false} PushedRest(c: Config, sh: Shared, picked: seq<Id>, op: Op, choice: Choice)
    requires Pushed(c, sh, picked, op, choice) != []
    ensures forall p :: p in Pushed(c, sh, picked, op, choice)[1..] ==> !CreatingOp(p)
  {
    hide Pushed, CreatingOp;
    var pushed := Pushed(c, sh, picked, op, choice);
    assert forall p :: p in pushed[1..] ==> p in pushed;
    if op.Lookup? {
      LookupRest(c, sh, picked, op, choice);
    } else {
      PushedFollows(c, sh, picked, op, choice);
      forall p: Op | Follows(op, p) ensures !CreatingOp(p) {
        OnlyLookupCreates(op, p);
      }
    }
  }

  lemma {:induction false} LookupRest(c: Config, sh: Shared, picked: seq<Id>, op: Op, choice: Choice)
    requires op.Lookup? && Pushed(c, sh, picked, op, choice) != []
    ensures forall p :: p in Pushed(c, sh, picked, op, choice)[1..] ==> !CreatingOp(p)
  {
    assert Pushed(c, sh, picked, op, choice)[1..] == AfterAdding(c, op.id);
  }

  lemma {:induction false} OnlyLookupCreates(op: Op, p: Op)
    requires Follows(op, p) && !op.Lookup?
    ensures !CreatingOp(p)
  {
  }

  lemma {:induction false} ActKeepsInv(c: Config, s: State, made: set<Id>, t: Tid, choice: Choice)
    requires Inv(s, made) && Enabled(c, s, Act(t, choice))
    ensures Inv(Step(c, s, Act(t, choice)), made)
  {
    hide Effect, Pushed, Picks, CanDo;
    var s' := Step(c, s, Act(t, choice));
    forall u, k | Creating(s', u, k) ensures Creating(s, u, k) {
      ActCreating(c, s, made, t, choice, k);
    }
    forall u, op | u in s'.threads && op in s'.threads[u].ops && op.Put? ensures Over(s', made, op.id) {
      ActPuts(c, s, made, t, choice, u, op);
    }
    forall u, op | u in s'.threads && s'.threads[u].ops != [] && op in s'.threads[u].ops[1..]
      ensures !CreatingOp(op)
    {
      ActRests(c, s, made, t, choice, u, op);
    }
    forall k | k in s'.sh.lru ensures Over(s', made, k) {
      ActCreating(c, s, made, t, choice, k);
      if k !in s.sh.lru && s.threads[t].ops[0].Put? { PutFills(c, s, t, choice, k); }
    }
  }

  lemma {:induction false} PutFills(c: Config, s: State, t: Tid, choice: Choice, k: Id)
    requires Enabled(c, s, Act(t, choice)) && s.threads[t].ops[0].Put?
    requires k in Step(c, s, Act(t, choice)).sh.lru && k !in s.sh.lru
    ensures s.threads[t].ops[0].id == k && s.threads[t].ops[0] in s.threads[t].ops
  {
    Terminal.EffectOnEntry(c, s.sh, t, s.threads[t].ops[0], choice, k);
  }

  lemma {:induction false} ProgramOps(api: Api)
    ensures forall op :: op in Program(api) ==> !op.Put? && (CreatingOp(op) ==> api.GetOrCreate? && op.id == api.id)
    ensures Program(api) != [] && forall op :: op in Program(api)[1..] ==> !CreatingOp(op)
  {
  }

  lemma {:induction false} StartKeepsInv(c: Config, s: State, made: set<Id>, t: Tid, api: Api)
    requires Inv(s, made) && Enabled(c, s, Start(t, api)) && MadeBy(Start(t, api)) !! made
    ensures Inv(Step(c, s, Start(t, api)), made + MadeBy(Start(t, api)))
  {
    hide Program;
    var s', made' := Step(c, s, Start(t, api)), made + MadeBy(Start(t, api));
    ProgramOps(api);
    assert s'.threads[t].ops == Program(api) && Program(api)[0] in Program(api);
    forall u, k | Creating(s', u, k) ensures Creating(s, u, k) || (u == t && k in MadeBy(Start(t, api))) {}
    forall k | k in made && Over(s, made, k) ensures Over(s', made', k) {}
  }

  lemma {:induction false} TickKeepsInv(c: Config, s: State, made: set<Id>, elapsed: nat)
    requires Inv(s, made)
    ensures Inv(Step(c, s, Tick(elapsed)), made)
  {
    var s' := Step(c, s, Tick(elapsed));
    forall u, k ensures Creating(s', u, k) <==> Creating(s, u, k) {}
    forall k ensures Over(s', made, k) <==> Over(s, made, k) {}
  }

  /** Every step keeps: an id that is in the cache, or that an Update is about to insert, is not being
      created any more. So no creation inserts late. */
  lemma {:induction false} StepKeepsInv(c: Config, s: State, made: set<Id>, e: Event)
    requires Inv(s, made) && Enabled(c, s, e) && MadeBy(e) !! made
    ensures Inv(Step(c, s, e), made + MadeBy(e)) && forall k :: !Terminal.InsertsLate(s, e, k)
  {
    hide Effect, Pushed, Picks, CanDo;
    match e
    case Start(t, api) => StartKeepsInv(c, s, made, t, api);
    case Tick(elapsed) =>
      TickKeepsInv(c, s, made, elapsed);
      assert made + MadeBy(e) == made;
    case Act(t, choice) =>
      ActKeepsInv(c, s, made, t, choice);
      assert made + MadeBy(e) == made;
      assert forall k :: Terminal.InsertsLate(s, e, k) ==> Creating(s, t, k);
  }

  lemma {:induction false} RunKeepsInv(c: Config, s: State, made: set<Id>, es: seq<Event>, k: Id)
    requires Inv(s, made) && Run(c, s, es) && CreatesNew(es, made)
    ensures Inv(Final(c, s, es), made + Made(es)) && Obeys(c, s, es, Terminal.NeverLate(k))
    decreases |es|
  {
    if es == [] {
      assert made + Made(es) == made;
    } else {
      NewTail(es, made);
      StepKeepsInv(c, s, made, es[0]);
      RunKeepsInv(c, Step(c, s, es[0]), made + MadeBy(es[0]), es[1..], k);
      assert made + MadeBy(es[0]) + Made(es[1..]) == made + Made(es);
    }
  }

  // ---- terminal values

  /** With these workers, a terminal value never changes while its key is in the cache, provided that
      no id is created twice. */
  ghost predicate AbsorbingOnce(c: Config, workers: set<Tid>) {
    forall s0, before, after, k :: Terminal.Settles(c, workers, s0, before, after, k) && CreatesOnce(before + after) ==>
      Terminal.Unchanged(c, s0, before, after, k)
  }

  /** One worker absorbs if every id is created at most once, even though a creation takes two steps. */
  lemma {:induction false} OneWorkerAbsorbsOnce(c: Config, w: Tid)
    ensures AbsorbingOnce(c, {w})
  {
    forall s0, before, after, k | Terminal.Settles(c, {w}, s0, before, after, k) && CreatesOnce(before + after)
      ensures Terminal.Unchanged(c, s0, before, after, k)
    {
      NewHalf(before, after);
      RunKeepsInv(c, s0, {}, before, k);
      RunKeepsInv(c, Final(c, s0, before), {} + Made(before), after, k);
      Terminal.LoneWorkerSettles(c, w, s0, before, after, k);
    }
  }

  lemma {:induction false} NoWorkerAbsorbsOnce(c: Config)
    ensures AbsorbingOnce(c, {})
  {
    Terminal.NoWorkerAbsorbs(c);
  }
}

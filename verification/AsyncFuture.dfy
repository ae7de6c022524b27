/** The asynchronous future: one goroutine computes and sets the result, any number of clients call
    Get and Ready. Every lock operation, field access and channel operation is a step of its own. */
module AsyncFuture {
  import opened Options

  type Tid = nat

  /** A value and an error, either of which may be nil. */
  datatype Outcome = Outcome(val: Option<string>, err: Option<string>)

  datatype Setter =
    | Computing
    | Locking(out: Outcome)
    | SettingVal(out: Outcome)
    | SettingErr(out: Outcome)
    | SettingReady(out: Outcome)
    | Sending(out: Outcome)
    | Unlocking(out: Outcome)
    | Finished(out: Outcome)

  datatype Client =
    | Idle
    // Get
    | Waiting
    | GetLock
    | GetVal
    | GetErr(val: Option<string>)
    | GetUnlock(out: Outcome)
    | Returned(out: Outcome)
    | Cancelled
    // Ready
    | ReadyLock
    | ReadyRead
    | ReadyUnlock(answer: bool)

  datatype Owner = SetterOwns | ClientOwns(t: Tid)

  /** `channel` holds at most one token. `receiver` remembers the Get that took it. */
  datatype Future = Future(
    val: Option<string>, err: Option<string>, ready: bool,
    channel: nat, lock: Option<Owner>,
    setter: Setter, clients: map<Tid, Client>, receiver: Option<Tid>)

  datatype Event =
    | Complete(out: Outcome)
    | Set
    | CallGet(t: Tid)
    | CallReady(t: Tid)
    | Cancel(t: Tid)
    | Go(t: Tid)
    | Leave(t: Tid)

  const CAPACITY := 1

  predicate Blocked(f: Future) {
    (f.setter.Locking? && f.lock != None) || (f.setter.Sending? && f.channel >= CAPACITY)
  }

  predicate Enabled(f: Future, e: Event) {
    match e
    case Complete(_) => f.setter == Computing
    case Set => f.setter != Computing && !f.setter.Finished? && !Blocked(f)
    case CallGet(t) => t in f.clients && f.clients[t] == Idle
    case CallReady(t) => t in f.clients && f.clients[t] == Idle
    case Cancel(t) => t in f.clients && f.clients[t] == Waiting
    case Leave(t) => t in f.clients && (f.clients[t].Returned? || f.clients[t] == Cancelled)
    case Go(t) =>
      t in f.clients &&
      match f.clients[t]
      case Waiting => f.channel > 0
      case GetLock => f.lock == None
      case ReadyLock => f.lock == None
      case GetVal => true
      case GetErr(_) => true
      case GetUnlock(_) => true
      case ReadyRead => true
      case ReadyUnlock(_) => true
      case _ => false
  }

  function SetStep(f: Future): Future
    requires Enabled(f, Set)
  {
    var out := f.setter.out;
    match f.setter
    case Locking(_) => f.(lock := Some(SetterOwns), setter := SettingVal(out))
    case SettingVal(_) => f.(val := out.val, setter := SettingErr(out))
    case SettingErr(_) => f.(err := out.err, setter := SettingReady(out))
    case SettingReady(_) => f.(ready := true, setter := Sending(out))
    case Sending(_) => f.(channel := f.channel + 1, setter := Unlocking(out))
    case Unlocking(_) => f.(lock := None, setter := Finished(out))
  }

  function At(f: Future, t: Tid, pc: Client): Future {
    f.(clients := f.clients[t := pc])
  }

  function ClientStep(f: Future, t: Tid): Future
    requires Enabled(f, Go(t))
  {
    match f.clients[t]
    case Waiting => At(f, t, GetLock).(channel := f.channel - 1, receiver := Some(t))
    case GetLock => At(f, t, GetVal).(lock := Some(ClientOwns(t)))
    case GetVal => At(f, t, GetErr(f.val))
    case GetErr(val) => At(f, t, GetUnlock(Outcome(val, f.err)))
    case GetUnlock(out) => At(f, t, Returned(out)).(lock := None)
    case ReadyLock => At(f, t, ReadyRead).(lock := Some(ClientOwns(t)))
    case ReadyRead => At(f, t, ReadyUnlock(f.ready))
    case ReadyUnlock(_) => At(f, t, Idle).(lock := None)
  }

  function Step(f: Future, e: Event): Future
    requires Enabled(f, e)
  {
    match e
    case Complete(out) => f.(setter := Locking(out))
    case Set => SetStep(f)
    case CallGet(t) => At(f, t, Waiting)
    case CallReady(t) => At(f, t, ReadyLock)
    case Cancel(t) => At(f, t, Cancelled)
    case Leave(t) => At(f, t, Idle)
    case Go(t) => ClientStep(f, t)
  }

  ghost predicate Init(f: Future) {
    f.val == None && f.err == None && !f.ready && f.channel == 0 && f.lock == None &&
    f.setter == Computing && f.receiver == None && forall t :: t in f.clients ==> f.clients[t] == Idle
  }

  predicate Sent(f: Future) {
    f.setter.Unlocking? || f.setter.Finished?
  }

  predicate InsideSetter(s: Setter) {
    !s.Computing? && !s.Locking? && !s.Finished?
  }

  predicate InsideClient(c: Client) {
    c.GetVal? || c.GetErr? || c.GetUnlock? || c.ReadyRead? || c.ReadyUnlock?
  }

  predicate PastReceive(c: Client) {
    c.GetLock? || c.GetVal? || c.GetErr? || c.GetUnlock? || c.Returned?
  }

  /** Whoever is between Lock and Unlock holds the lock. */
  ghost predicate LockOk(f: Future) {
    (InsideSetter(f.setter) <==> f.lock == Some(SetterOwns)) &&
    (forall t :: f.lock == Some(ClientOwns(t)) ==> t in f.clients) &&
    (forall t :: t in f.clients ==> (InsideClient(f.clients[t]) <==> f.lock == Some(ClientOwns(t))))
  }

  /** One token is made, and it is in the channel or with the one client that received it. */
  ghost predicate TokenOk(f: Future) {
    f.channel + (if f.receiver.Some? then 1 else 0) == (if Sent(f) then 1 else 0) &&
    (forall t :: t in f.clients && PastReceive(f.clients[t]) ==> f.receiver == Some(t))
  }

  ghost predicate FieldsOk(f: Future) {
    (Sent(f) ==> f.ready && f.val == f.setter.out.val && f.err == f.setter.out.err) &&
    (f.ready <==> f.setter.Sending? || Sent(f)) &&
    (f.setter.Sending? ==> f.val == f.setter.out.val && f.err == f.setter.out.err) &&
    (f.setter.SettingReady? ==> f.val == f.setter.out.val && f.err == f.setter.out.err) &&
    (f.setter.SettingErr? ==> f.val == f.setter.out.val)
  }

  /** What clients have read so far. */
  ghost predicate ReadOk(f: Future) {
    forall t :: t in f.clients ==>
      match f.clients[t]
      case GetErr(val) => val == f.val
      case GetUnlock(out) => out == Outcome(f.val, f.err)
      case Returned(out) => out == Outcome(f.val, f.err)
      case ReadyUnlock(answer) => answer <==> Sent(f)
      case _ => true
  }

  ghost predicate Inv(f: Future) {
    LockOk(f) && TokenOk(f) && FieldsOk(f) && ReadOk(f)
  }

  lemma {:induction false} SetKeepsInv(f: Future)
    requires Inv(f) && Enabled(f, Set)
    ensures Inv(SetStep(f))
  {
  }

  lemma {:induction false} ClientKeepsLock(f: Future, t: Tid)
    requires LockOk(f) && Enabled(f, Go(t))
    ensures LockOk(ClientStep(f, t))
  {
  }

  lemma {:induction false} ClientKeepsToken(f: Future, t: Tid)
    requires TokenOk(f) && Enabled(f, Go(t))
    ensures TokenOk(ClientStep(f, t))
  {
  }

  lemma {:induction false} ClientKeepsRead(f: Future, t: Tid)
    requires Inv(f) && Enabled(f, Go(t))
    ensures FieldsOk(ClientStep(f, t)) && ReadOk(ClientStep(f, t))
  {
  }

  lemma {:induction false} ClientKeepsInv(f: Future, t: Tid)
    requires Inv(f) && Enabled(f, Go(t))
    ensures Inv(ClientStep(f, t))
  {
    ClientKeepsLock(f, t);
    ClientKeepsToken(f, t);
    ClientKeepsRead(f, t);
  }

  lemma {:induction false} CallKeepsInv(f: Future, e: Event)
    requires Inv(f) && Enabled(f, e) && !e.Set? && !e.Go?
    ensures Inv(Step(f, e))
  {
  }

  lemma {:induction false} StepKeepsInv(f: Future, e: Event)
    requires Inv(f) && Enabled(f, e)
    ensures Inv(Step(f, e))
  {
    match e
    case Set => SetKeepsInv(f);
    case Go(t) => ClientKeepsInv(f, t);
    case _ => CallKeepsInv(f, e);
  }

  ghost predicate Run(f: Future, es: seq<Event>)
    decreases |es|
  {
    es == [] || (Enabled(f, es[0]) && Run(Step(f, es[0]), es[1..]))
  }

  ghost function Final(f: Future, es: seq<Event>): Future
    requires Run(f, es)
    decreases |es|
  {
    if es == [] then f else Final(Step(f, es[0]), es[1..])
  }

  lemma {:induction false} RunKeepsInv(f: Future, es: seq<Event>)
    requires Inv(f) && Run(f, es)
    ensures Inv(Final(f, es))
    decreases |es|
  {
    if es != [] {
      StepKeepsInv(f, es[0]);
      RunKeepsInv(Step(f, es[0]), es[1..]);
    }
  }

  /** In every interleaving the setter never waits for room in the channel, and never finds the lock
      held by a client that cannot go on. */
  lemma {:induction false} SetNeverBlocksOnSend(f0: Future, es: seq<Event>)
    requires Init(f0) && Run(f0, es)
    ensures
      var f := Final(f0, es);
      && (f.setter.Sending? ==> Enabled(f, Set))
      && (forall t :: f.lock == Some(ClientOwns(t)) ==> Enabled(f, Go(t)))
  {
    RunKeepsInv(f0, es);
  }

  /** Every Get that is not cancelled returns exactly what the closure computed. */
  lemma {:induction false} GetReturnsTheOutcome(f0: Future, es: seq<Event>, t: Tid)
    requires Init(f0) && Run(f0, es) && t in Final(f0, es).clients && Final(f0, es).clients[t].Returned?
    ensures
      var f := Final(f0, es);
      f.setter != Computing && f.clients[t].out == f.setter.out
  {
    RunKeepsInv(f0, es);
  }

  lemma {:induction false} StepKeepsReceiver(f: Future, e: Event)
    requires Inv(f) && Enabled(f, e) && f.receiver.Some?
    ensures Step(f, e).receiver == f.receiver
    ensures forall t :: t in f.clients && f.clients[t] == Waiting ==> !Enabled(f, Go(t))
  {
  }

  lemma {:induction false} ReceiverStays(f: Future, es: seq<Event>)
    requires Inv(f) && Run(f, es) && f.receiver.Some?
    ensures Final(f, es).receiver == f.receiver
    decreases |es|
  {
    if es != [] {
      StepKeepsReceiver(f, es[0]);
      StepKeepsInv(f, es[0]);
      ReceiverStays(Step(f, es[0]), es[1..]);
    }
  }

  /** The one token serves one Get: after some Get has received it, in every continuation every other
      waiting Get stays blocked unless it is cancelled. */
  lemma {:induction false} AtMostOneGetReceives(f0: Future, before: seq<Event>, after: seq<Event>)
    requires Init(f0) && Run(f0, before) && Final(f0, before).receiver.Some? && Run(Final(f0, before), after)
    ensures
      var f, g := Final(f0, before), Final(Final(f0, before), after);
      g.receiver == f.receiver &&
      forall t :: t in g.clients && g.clients[t] == Waiting ==>
        !Enabled(g, Go(t)) && Enabled(g, Cancel(t)) && Step(g, Cancel(t)).clients[t] == Cancelled
  {
    RunKeepsInv(f0, before);
    var f := Final(f0, before);
    ReceiverStays(f, after);
    RunKeepsInv(f, after);
  }

  lemma {:induction false} SentStays(f: Future, es: seq<Event>)
    requires Run(f, es) && Sent(f)
    ensures Sent(Final(f, es))
    decreases |es|
  {
    if es != [] { SentStays(Step(f, es[0]), es[1..]); }
  }

  /** Once Ready has answered true, the token has been sent for good. The documentation concludes that Get
      then returns immediately; in fact, in every continuation a waiting Get can go on exactly as long as
      no Get has taken the token. */
  lemma {:induction false} ReadyMeansSent(f0: Future, before: seq<Event>, t: Tid, after: seq<Event>, u: Tid)
    requires Init(f0) && Run(f0, before) && Run(Final(f0, before), after)
    requires t in Final(f0, before).clients && Final(f0, before).clients[t] == ReadyUnlock(true)
    requires var g := Final(Final(f0, before), after); u in g.clients && g.clients[u] == Waiting
    ensures
      var g := Final(Final(f0, before), after);
      g.ready && (g.channel == 1 <==> g.receiver == None) && (Enabled(g, Go(u)) <==> g.receiver == None)
  {
    RunKeepsInv(f0, before);
    SentStays(Final(f0, before), after);
    RunKeepsInv(Final(f0, before), after);
  }

  /** Ready answers true exactly if the setter has finished. */
  lemma {:induction false} ReadyAnswersIff(f0: Future, es: seq<Event>, t: Tid, answer: bool)
    requires Init(f0) && Run(f0, es)
    requires t in Final(f0, es).clients && Final(f0, es).clients[t] == ReadyUnlock(answer)
    ensures answer <==> Final(f0, es).setter.Finished?
  {
    RunKeepsInv(f0, es);
  }

  // ---- what can happen from every state of every run

  /** Steps that the setter and the clients that are inside a call take by themselves. */
  ghost predicate OwnSteps(es: seq<Event>) {
    forall i :: 0 <= i < |es| ==> es[i].Set? || es[i].Go?
  }

  lemma {:induction false} RunAppend(f: Future, a: seq<Event>, b: seq<Event>)
    requires Run(f, a) && Run(Final(f, a), b)
    ensures Run(f, a + b) && Final(f, a + b) == Final(Final(f, a), b)
    decreases |a|
  {
    if a == [] {
      assert a + b == b;
    } else {
      RunAppend(Step(f, a[0]), a[1..], b);
      assert (a + b)[0] == a[0] && (a + b)[1..] == a[1..] + b;
    }
  }

  lemma {:induction false} RunCons(f: Future, e: Event, es: seq<Event>)
    requires Enabled(f, e) && Run(Step(f, e), es)
    ensures Run(f, [e] + es) && Final(f, [e] + es) == Final(Step(f, e), es)
  {
    assert ([e] + es)[0] == e && ([e] + es)[1..] == es;
  }

  ghost function SetterSteps(s: Setter): nat {
    match s
    case Computing => 7
    case Locking(_) => 6
    case SettingVal(_) => 5
    case SettingErr(_) => 4
    case SettingReady(_) => 3
    case Sending(_) => 2
    case Unlocking(_) => 1
    case Finished(_) => 0
  }

  ghost function ClientSteps(c: Client): nat {
    match c
    case Waiting => 5
    case GetLock => 4
    case GetVal => 3
    case GetErr(_) => 2
    case GetUnlock(_) => 1
    case ReadyLock => 3
    case ReadyRead => 2
    case ReadyUnlock(_) => 1
    case _ => 0
  }

  /** The client that holds the lock goes on until it lets go of it. */
  lemma {:induction false} ClientReleases(f: Future, u: Tid) returns (es: seq<Event>)
    requires Inv(f) && u in f.clients && f.lock == Some(ClientOwns(u))
    ensures Run(f, es) && OwnSteps(es) && Final(f, es).lock == None && Final(f, es).setter == f.setter
    ensures Final(f, es).channel == f.channel && Final(f, es).receiver == f.receiver
    ensures Final(f, es).clients.Keys == f.clients.Keys
    ensures forall t :: t in f.clients && t != u ==> Final(f, es).clients[t] == f.clients[t]
    decreases ClientSteps(f.clients[u])
  {
    var f' := Step(f, Go(u));
    StepKeepsInv(f, Go(u));
    if f'.lock == None {
      es := [Go(u)];
      RunCons(f, Go(u), []);
    } else {
      var rest := ClientReleases(f', u);
      es := [Go(u)] + rest;
      RunCons(f, Go(u), rest);
    }
  }

  /** The setter goes on until it has finished. */
  lemma {:induction false} SetterFinishes(f: Future) returns (es: seq<Event>)
    requires Inv(f) && !f.setter.Computing? && (f.setter.Locking? ==> f.lock == None)
    ensures Run(f, es) && OwnSteps(es) && Final(f, es).setter == Finished(f.setter.out)
    ensures Final(f, es).clients == f.clients && Final(f, es).receiver == f.receiver
    ensures f.lock == None || f.lock == Some(SetterOwns) ==> Final(f, es).lock == None
    decreases SetterSteps(f.setter)
  {
    if f.setter.Finished? {
      es := [];
    } else {
      var f' := Step(f, Set);
      StepKeepsInv(f, Set);
      var rest := SetterFinishes(f');
      es := [Set] + rest;
      RunCons(f, Set, rest);
    }
  }

  /** From every state after the computation: the lock is let go of and the setter finishes, without any
      new call. */
  lemma {:induction false} AlwaysFinishes(f: Future) returns (es: seq<Event>)
    requires Inv(f) && !f.setter.Computing?
    ensures Run(f, es) && OwnSteps(es) && Inv(Final(f, es)) && Final(f, es).clients.Keys == f.clients.Keys
    ensures Final(f, es).setter == Finished(f.setter.out) && Final(f, es).lock == None
    ensures Final(f, es).receiver == f.receiver
    ensures forall t :: t in f.clients && f.lock != Some(ClientOwns(t)) ==> Final(f, es).clients[t] == f.clients[t]
  {
    var first: seq<Event> := [];
    if f.lock.Some? && f.lock.value.ClientOwns? {
      first := ClientReleases(f, f.lock.value.t);
    }
    RunKeepsInv(f, first);
    var rest := SetterFinishes(Final(f, first));
    es := first + rest;
    RunAppend(f, first, rest);
    RunKeepsInv(f, es);
  }

  /** After the setter has finished, a Get that holds the token, or finds it in the channel, returns. */
  lemma {:induction false} GetFinishes(f: Future, t: Tid) returns (es: seq<Event>)
    requires Inv(f) && f.setter.Finished? && t in f.clients
    requires f.clients[t] == Waiting || PastReceive(f.clients[t])
    requires f.clients[t] == Waiting ==> f.channel > 0
    requires f.lock == None || f.lock == Some(ClientOwns(t))
    ensures Run(f, es) && OwnSteps(es) && t in Final(f, es).clients
    ensures Final(f, es).clients[t] == Returned(f.setter.out)
    decreases ClientSteps(f.clients[t])
  {
    if f.clients[t].Returned? {
      es := [];
    } else {
      StepKeepsInv(f, Go(t));
      var rest := GetFinishes(Step(f, Go(t)), t);
      es := [Go(t)] + rest;
      RunCons(f, Go(t), rest);
    }
  }

  /** No Get waits in vain: from every state of every run in which the closure has been computed and nobody has
      taken the token, each waiting Get can still return the outcome, without any new call. */
  lemma {:induction false} GetCanReturn(f0: Future, before: seq<Event>, t: Tid) returns (after: seq<Event>)
    requires Init(f0) && Run(f0, before)
    requires var f := Final(f0, before);
      !f.setter.Computing? && f.receiver == None && t in f.clients && f.clients[t] == Waiting
    ensures
      var f := Final(f0, before);
      && Run(f, after) && OwnSteps(after) && t in Final(f, after).clients
      && Final(f, after).clients[t] == Returned(f.setter.out)
  {
    var f := Final(f0, before);
    RunKeepsInv(f0, before);
    var first := AlwaysFinishes(f);
    var rest := GetFinishes(Final(f, first), t);
    after := first + rest;
    RunAppend(f, first, rest);
  }

  /** Likewise each Ready can still answer true once the closure has been computed. */
  lemma {:induction false} ReadyCanAnswerTrue(f0: Future, before: seq<Event>, t: Tid) returns (after: seq<Event>)
    requires Init(f0) && Run(f0, before)
    requires var f := Final(f0, before); !f.setter.Computing? && t in f.clients && f.clients[t] == ReadyLock
    ensures
      var f := Final(f0, before);
      Run(f, after) && t in Final(f, after).clients && Final(f, after).clients[t] == ReadyUnlock(true)
  {
    var f := Final(f0, before);
    RunKeepsInv(f0, before);
    var first := AlwaysFinishes(f);
    var g := Final(f, first);
    var rest := TwoSteps(g, Go(t), Go(t));
    after := first + rest;
    RunAppend(f, first, rest);
  }

  /** Two runs in a row of a new future: a client gets the outcome, and when it asks afterwards it is told
      that the future is ready. */
  lemma {:induction false} GetThenReady(f0: Future, t: Tid, out: Outcome) returns (a: seq<Event>, b: seq<Event>)
    requires Init(f0) && t in f0.clients
    ensures Run(f0, a) && t in Final(f0, a).clients && Final(f0, a).clients[t] == Returned(out)
    ensures
      var f := Final(f0, a);
      Run(f, b) && t in Final(f, b).clients && Final(f, b).clients[t] == ReadyUnlock(true)
  {
    a := TwoSteps(f0, CallGet(t), Complete(out));
    var rest := GetCanReturn(f0, a, t);
    RunAppend(f0, a, rest);
    a := a + rest;
    RunKeepsInv(f0, a);
    var f := Final(f0, a);
    b := TwoSteps(f, Leave(t), CallReady(t));
    RunAppend(f0, a, b);
    rest := ReadyCanAnswerTrue(f0, a + b, t);
    RunAppend(f, b, rest);
    b := b + rest;
  }

  lemma {:induction false} TwoSteps(f: Future, d: Event, e: Event) returns (es: seq<Event>)
    requires Enabled(f, d) && Enabled(Step(f, d), e)
    ensures Run(f, es) && Final(f, es) == Step(Step(f, d), e)
  {
    assert [e] + [] == [e];
    RunCons(Step(f, d), e, []);
    RunCons(f, d, [e]);
    es := [d] + [e];
  }
}

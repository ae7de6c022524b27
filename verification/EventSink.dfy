/** The event sink: it sends each event once, as far as its filter remembers. Calls of many threads
    interleave at every access to the filter, the rate limiter and the admin service. */
module EventSink {
  import opened Options
  import opened OppoBloom
  import opened EventIdentity

  /** Where a call to Sink is: before the rate limiter, before the send, or adding to the filter. */
  datatype Stage = Ready | Gate(msg: Message) | Send(msg: Message) | Record

  /** `identify` makes the identity of a message; `sent` remembers the messages that the admin service
      accepted, and no step reads it. */
  datatype Sink = Sink(
    filter: Filter,
    stages: map<Tid, Stage>,
    sent: set<Message>,
    identify: Message -> Result<string, string>)

  datatype Call =
    | Submit(t: Tid, msg: Message)
    | Limit(t: Tid, allowed: bool)
    | Deliver(t: Tid, ok: bool)
    | Remember(t: Tid)

  datatype Reply = Pending | ParseError | AlreadySent | Throttled | SendError | Done

  ghost predicate HasId(s: Sink, m: Message, id: Id) {
    s.identify(m) == Success(id)
  }

  ghost predicate Inv(s: Sink) {
    Valid(s.filter) &&
    (forall id :: s.filter.index(id) < |s.filter.slots|) &&
    (forall id :: id in s.filter.added ==> exists m :: m in s.sent && HasId(s, m, id)) &&
    s.stages.Keys == s.filter.threads.Keys &&
    (forall t :: t in s.stages ==> (s.stages[t] == Record <==> s.filter.threads[t] != Idle)) &&
    (forall t :: t in s.stages && (s.stages[t].Gate? || s.stages[t].Send?) ==>
      s.identify(s.stages[t].msg).Success?)
  }

  predicate Can(s: Sink, c: Call) {
    c.t in s.stages &&
    match c
    case Submit(t, _) => s.stages[t] == Ready
    case Limit(t, _) => s.stages[t].Gate?
    case Deliver(t, _) => s.stages[t].Send?
    case Remember(t) => s.stages[t] == Record
  }

  function At(s: Sink, t: Tid, stage: Stage): Sink {
    s.(stages := s.stages[t := stage])
  }

  function Do(s: Sink, c: Call): Sink
    requires Inv(s) && Can(s, c)
  {
    match c
    case Submit(t, msg) =>
      var id := s.identify(msg);
      if id.Failure? || Contains(s.filter, id.value) then s else At(s, t, Gate(msg))
    case Limit(t, allowed) => At(s, t, if allowed then Send(s.stages[t].msg) else Ready)
    case Deliver(t, ok) =>
      if !ok then At(s, t, Ready)
      else
        var msg := s.stages[t].msg;
        At(s, t, Record).(filter := StartAdd(s.filter, t, s.identify(msg).value), sent := s.sent + {msg})
    case Remember(t) =>
      var filter := Access(s.filter, t);
      At(s, t, if Busy(filter, t) then Record else Ready).(filter := filter)
  }

  /** What the call gives back to its client, if this step ends it. */
  function Outcome(s: Sink, c: Call): Reply
    requires Inv(s) && Can(s, c)
  {
    match c
    case Submit(_, msg) =>
      var id := s.identify(msg);
      if id.Failure? then ParseError else if Contains(s.filter, id.value) then AlreadySent else Pending
    case Limit(_, allowed) => if allowed then Pending else Throttled
    case Deliver(_, ok) => if ok then Pending else SendError
    case Remember(t) => if Busy(Access(s.filter, t), t) then Pending else Done
  }

  lemma {:induction false} DeliverKeepsInv(s: Sink, t: Tid)
    requires Inv(s) && Can(s, Deliver(t, true))
    ensures Inv(Do(s, Deliver(t, true)))
  {
    var s' := Do(s, Deliver(t, true));
    var msg := s.stages[t].msg;
    var id := s.identify(msg).value;
    StartAddKeepsValid(s.filter, t, id);
    assert s'.filter.added == s.filter.added + {id};
    forall added | added in s'.filter.added ensures exists m :: m in s'.sent && HasId(s', m, added) {
      if added == id {
        assert HasId(s', msg, id);
      } else {
        var m :| m in s.sent && HasId(s, m, added);
        assert m in s'.sent && HasId(s', m, added);
      }
    }
  }

  lemma {:induction false} AccessFrame(f: Filter, t: Tid)
    requires Valid(f) && Busy(f, t)
    ensures
      var f' := Access(f, t);
      Valid(f') && f'.index == f.index && |f'.slots| == |f.slots| && f'.added == f.added &&
      f'.threads == f.threads[t := f'.threads[t]]
  {
    AccessRefinesExchange(f, t);
  }

  lemma {:induction false} WithFilter(s: Sink, t: Tid, f': Filter)
    requires Inv(s) && t in s.stages
    requires Valid(f') && f'.index == s.filter.index && |f'.slots| == |s.filter.slots| && f'.added == s.filter.added
    requires t in f'.threads && f'.threads == s.filter.threads[t := f'.threads[t]]
    ensures Inv(At(s, t, if Busy(f', t) then Record else Ready).(filter := f'))
  {
  }

  lemma {:induction false} RememberKeepsInv(s: Sink, t: Tid)
    requires Inv(s) && Can(s, Remember(t))
    ensures Inv(Do(s, Remember(t)))
  {
    AccessFrame(s.filter, t);
    WithFilter(s, t, Access(s.filter, t));
  }

  lemma {:induction false} DoKeepsInv(s: Sink, c: Call)
    requires Inv(s) && Can(s, c)
    ensures Inv(Do(s, c)) && s.sent <= Do(s, c).sent && Do(s, c).identify == s.identify
  {
    match c
    case Deliver(t, ok) => if ok { DeliverKeepsInv(s, t); }
    case Remember(t) => RememberKeepsInv(s, t);
    case _ =>
  }

  ghost predicate Run(s: Sink, cs: seq<Call>)
    requires Inv(s)
    decreases |cs|
  {
    cs == [] || (Can(s, cs[0]) && (DoKeepsInv(s, cs[0]); Run(Do(s, cs[0]), cs[1..])))
  }

  ghost function Final(s: Sink, cs: seq<Call>): (r: Sink)
    requires Inv(s) && Run(s, cs)
    ensures Inv(r) && r.identify == s.identify
    decreases |cs|
  {
    if cs == [] then s
    else
      DoKeepsInv(s, cs[0]);
      Final(Do(s, cs[0]), cs[1..])
  }

  /** A new sink in front of an empty filter. */
  ghost predicate Init(s: Sink) {
    Empty(s.filter) && (forall id :: s.filter.index(id) < |s.filter.slots|) && s.sent == {} &&
    s.stages.Keys == s.filter.threads.Keys && (forall t :: t in s.stages ==> s.stages[t] == Ready) &&
    forall m :: s.identify(m) == IdFromMessage(m)
  }

  /** The sink as it is constructed: in front of a new filter of the requested size. */
  method NewSink(size: int, md5: Id -> Digest, threads: set<Tid>) returns (r: Result<Sink, SizeError>)
    ensures r.Failure? <==> size > MAX_FILTER_SIZE || size <= 0
    ensures r.Success? ==> Init(r.value) && r.value.stages.Keys == threads
  {
    var filter := NewOppoBloomFilter(size, md5, threads);
    if filter.Failure? {
      assert filter.error.SizeTooLarge? || filter.error.SizeTooSmall?;
      return Failure(filter.error);
    }
    var sink := Sink(filter.value, map t | t in threads :: Ready, {}, IdFromMessage);
    return Success(sink);
  }

  /** A message was delivered by some step of the run. */
  ghost predicate DeliveredIn(s: Sink, cs: seq<Call>, m: Message)
    requires Inv(s) && Run(s, cs)
    decreases |cs|
  {
    cs != [] &&
    ((cs[0].Deliver? && cs[0].ok && s.stages[cs[0].t] == Send(m)) ||
     (DoKeepsInv(s, cs[0]); DeliveredIn(Do(s, cs[0]), cs[1..], m)))
  }

  lemma {:induction false} SentWasDelivered(s: Sink, cs: seq<Call>, m: Message)
    requires Inv(s) && Run(s, cs)
    ensures m in Final(s, cs).sent <==> m in s.sent || DeliveredIn(s, cs, m)
    decreases |cs|
  {
    if cs != [] {
      DoKeepsInv(s, cs[0]);
      SentWasDelivered(Do(s, cs[0]), cs[1..], m);
    }
  }

  /** Suppression is sound over whole runs: the sink's own "already sent" answer means that a message
      with the same identity was delivered earlier in the run, despite all overwrites in the filter.
      So a throttled or failed send is never suppressed when it is retried. */
  lemma {:induction false} SuppressionIsSound(s: Sink, cs: seq<Call>, t: Tid, msg: Message)
    requires Init(s) && Run(s, cs) && Can(Final(s, cs), Submit(t, msg))
    requires Outcome(Final(s, cs), Submit(t, msg)) == AlreadySent
    ensures exists m :: DeliveredIn(s, cs, m) && IdFromMessage(m) == IdFromMessage(msg)
  {
    var s' := Final(s, cs);
    var id := s'.identify(msg).value;
    var m :| m in s'.sent && HasId(s', m, id);
    SentWasDelivered(s, cs, m);
    assert s'.identify(m) == IdFromMessage(m) && s'.identify(msg) == IdFromMessage(msg);
  }

  /** If no name contains a colon, the event that was delivered is the suppressed event itself. */
  lemma {:induction false} SuppressedEventWasDelivered(s: Sink, cs: seq<Call>, t: Tid, msg: Message)
    requires Init(s) && Run(s, cs) && Can(Final(s, cs), Submit(t, msg))
    requires Outcome(Final(s, cs), Submit(t, msg)) == AlreadySent
    requires SeparatorFree(msg) && forall m :: DeliveredIn(s, cs, m) ==> SeparatorFree(m)
    ensures DeliveredIn(s, cs, msg)
  {
    SuppressionIsSound(s, cs, t, msg);
    var m :| DeliveredIn(s, cs, m) && IdFromMessage(m) == IdFromMessage(msg);
    IdentityIsInjective(m, msg);
  }

  lemma {:induction false} RememberIs(s: Sink, t: Tid)
    requires Inv(s) && Can(s, Remember(t))
    ensures Valid(s.filter) && Busy(s.filter, t) && Inv(Do(s, Remember(t)))
    ensures
      var filter, s' := Access(s.filter, t), Do(s, Remember(t));
      s' == Sink(filter, s.stages[t := if Busy(filter, t) then Record else Ready], s.sent, s.identify)
  {
    DoKeepsInv(s, Remember(t));
  }

  lemma {:induction false} UndisturbedRemember(s: Sink, t: Tid, id: Id) returns (s': Sink)
    requires Inv(s) && Can(s, Remember(t)) && s.filter.threads[t].Load? && s.filter.mem[s.filter.threads[t].ptr] == id
    ensures Inv(Do(s, Remember(t))) && Can(Do(s, Remember(t)), Remember(t))
    ensures s' == Do(Do(s, Remember(t)), Remember(t)) && Inv(s')
    ensures s'.stages == s.stages[t := Ready] && s'.sent == s.sent && s'.identify == s.identify
    ensures Valid(s'.filter) && s'.filter.index(id) < |s'.filter.slots| && Contains(s'.filter, id)
  {
    hide Inv, Do, Valid, Access, Contains;
    RememberIs(s, t);
    UndisturbedAdd(s.filter, t);
    var s1 := Do(s, Remember(t));
    RememberIs(s1, t);
    s' := Do(s1, Remember(t));
  }

  /** The other half: a delivery whose Add nobody disturbs takes two accesses to the filter, and after
      them every message with the same identity is suppressed. */
  lemma {:induction false} UndisturbedDeliverySuppresses(s: Sink, t: Tid, again: Message) returns (s': Sink)
    requires Inv(s) && t in s.stages && s.stages[t].Send? && s.identify(again) == s.identify(s.stages[t].msg)
    ensures
      var s1 := Do(s, Deliver(t, true));
      Inv(s1) && Can(s1, Remember(t)) &&
      var s2 := Do(s1, Remember(t));
      Inv(s2) && Can(s2, Remember(t)) && s' == Do(s2, Remember(t)) && Inv(s')
    ensures Can(s', Submit(t, again)) && Outcome(s', Submit(t, again)) == AlreadySent
  {
    DoKeepsInv(s, Deliver(t, true));
    s' := UndisturbedRemember(Do(s, Deliver(t, true)), t, s.identify(again).value);
  }

  // ---- what a call answers

  /** The reply tells the client exactly what happened: it is pending exactly while the call goes on, and a
      failure to parse, a refused limiter, a failed send and a completed Add each have a reply of their own. */
  lemma {:induction false} RepliesAre(s: Sink, c: Call)
    requires Inv(s) && Can(s, c)
    ensures Outcome(s, c) == Pending <==> Do(s, c).stages[c.t] != Ready
    ensures Outcome(s, c) == ParseError <==> c.Submit? && s.identify(c.msg).Failure?
    ensures Outcome(s, c) == Throttled <==> c.Limit? && !c.allowed
    ensures Outcome(s, c) == SendError <==> c.Deliver? && !c.ok
    ensures Outcome(s, c) == Done <==> c.Remember? && Swaps(s.filter, c.t)
  {
    if c.Remember? { AccessRefinesExchange(s.filter, c.t); }
  }

  /** The thread takes no step between two positions of the run. */
  ghost predicate Silent(cs: seq<Call>, t: Tid, i: int, j: int) {
    forall k :: 0 <= k < |cs| && i < k < j ==> cs[k].t != t
  }

  /** The last steps of the thread submit the message. */
  ghost predicate Submitted(cs: seq<Call>, t: Tid, msg: Message, i: nat) {
    i < |cs| && cs[i] == Submit(t, msg) && Silent(cs, t, i, |cs|)
  }

  /** They submit it and pass the limiter. */
  ghost predicate Passed(cs: seq<Call>, t: Tid, msg: Message, i: nat, l: nat) {
    i < l < |cs| && cs[i] == Submit(t, msg) && cs[l] == Limit(t, true) && Silent(cs, t, i, l) && Silent(cs, t, l, |cs|)
  }

  /** They submit it, pass the limiter, deliver it and then only access the filter. */
  ghost predicate Delivered(cs: seq<Call>, t: Tid, msg: Message, i: nat, l: nat, d: nat) {
    i < l < d < |cs| && cs[i] == Submit(t, msg) && cs[l] == Limit(t, true) && cs[d] == Deliver(t, true) &&
    Silent(cs, t, i, l) && Silent(cs, t, l, d) &&
    forall k :: d < k < |cs| && cs[k].t == t ==> cs[k] == Remember(t)
  }

  /** What the stage of the thread says about its last steps. */
  ghost predicate StageTells(s: Sink, cs: seq<Call>, t: Tid)
    requires Inv(s) && t in s.stages
  {
    match s.stages[t]
    case Ready => true
    case Gate(msg) => exists i :: Submitted(cs, t, msg, i)
    case Send(msg) => exists i, l :: Passed(cs, t, msg, i, l)
    case Record => exists msg, i, l, d ::
      Delivered(cs, t, msg, i, l, d) && msg in s.sent && HasId(s, msg, s.filter.mem[s.filter.threads[t].ptr])
  }

  lemma {:induction false} RunSplit(s: Sink, cs: seq<Call>)
    requires Inv(s) && Run(s, cs) && cs != []
    ensures
      var front, last := cs[..|cs| - 1], cs[|cs| - 1];
      Run(s, front) && Can(Final(s, front), last) && Inv(Do(Final(s, front), last)) &&
      Final(s, cs) == Do(Final(s, front), last)
    decreases |cs|
  {
    hide Inv, Can, Do;
    DoKeepsInv(s, cs[0]);
    var next, rest := Do(s, cs[0]), cs[1..];
    if rest == [] {
      assert cs[..0] == [] && Final(next, []) == next;
    } else {
      RunSplit(next, rest);
      var front := cs[..|cs| - 1];
      assert front[1..] == rest[..|rest| - 1] && front[0] == cs[0];
      DoKeepsInv(Final(next, rest[..|rest| - 1]), rest[|rest| - 1]);
    }
  }

  lemma {:induction false} OthersTell(s: Sink, s': Sink, cs: seq<Call>, c: Call, t: Tid)
    requires Inv(s) && Inv(s') && t in s.stages && t in s'.stages && t != c.t && StageTells(s, cs, t)
    requires s'.stages[t] == s.stages[t] && s'.filter.threads[t] == s.filter.threads[t] && s.sent <= s'.sent
    requires s'.identify == s.identify
    requires forall p :: p in s.filter.mem ==> p in s'.filter.mem && s'.filter.mem[p] == s.filter.mem[p]
    ensures StageTells(s', cs + [c], t)
  {
    hide Contains;
    var cs' := cs + [c];
    assert forall k :: 0 <= k < |cs| ==> cs'[k] == cs[k];
    match s.stages[t]
    case Ready =>
    case Gate(msg) =>
      var i :| Submitted(cs, t, msg, i);
      assert Submitted(cs', t, msg, i);
    case Send(msg) =>
      var i, l :| Passed(cs, t, msg, i, l);
      assert Passed(cs', t, msg, i, l);
    case Record =>
      var msg, i, l, d :| Delivered(cs, t, msg, i, l, d) && msg in s.sent &&
        HasId(s, msg, s.filter.mem[s.filter.threads[t].ptr]);
      assert Delivered(cs', t, msg, i, l, d);
  }

  lemma {:induction false} SubmitTells(s: Sink, cs: seq<Call>, t: Tid, msg: Message)
    requires Inv(s) && Can(s, Submit(t, msg)) && Inv(Do(s, Submit(t, msg)))
    ensures StageTells(Do(s, Submit(t, msg)), cs + [Submit(t, msg)], t)
  {
    if Do(s, Submit(t, msg)).stages[t].Gate? { assert Submitted(cs + [Submit(t, msg)], t, msg, |cs|); }
  }

  lemma {:induction false} LimitTells(s: Sink, cs: seq<Call>, t: Tid, allowed: bool)
    requires Inv(s) && Can(s, Limit(t, allowed)) && Inv(Do(s, Limit(t, allowed))) && StageTells(s, cs, t)
    ensures StageTells(Do(s, Limit(t, allowed)), cs + [Limit(t, allowed)], t)
  {
    var cs', msg := cs + [Limit(t, allowed)], s.stages[t].msg;
    assert forall k :: 0 <= k < |cs| ==> cs'[k] == cs[k];
    var i :| Submitted(cs, t, msg, i);
    if allowed { assert Passed(cs', t, msg, i, |cs|); }
  }

  lemma {:induction false} DeliverTells(s: Sink, cs: seq<Call>, t: Tid, ok: bool)
    requires Inv(s) && Can(s, Deliver(t, ok)) && Inv(Do(s, Deliver(t, ok))) && StageTells(s, cs, t)
    ensures StageTells(Do(s, Deliver(t, ok)), cs + [Deliver(t, ok)], t)
  {
    var cs', msg, s' := cs + [Deliver(t, ok)], s.stages[t].msg, Do(s, Deliver(t, ok));
    assert forall k :: 0 <= k < |cs| ==> cs'[k] == cs[k];
    if ok {
      DeliveredIsNoted(s, t);
      var i, l :| Passed(cs, t, msg, i, l);
      assert Delivered(cs', t, msg, i, l, |cs|);
    }
  }

  lemma {:induction false} DeliveredIsNoted(s: Sink, t: Tid)
    requires Inv(s) && Can(s, Deliver(t, true))
    ensures
      var s' := Do(s, Deliver(t, true));
      Inv(s') && s'.stages[t] == Record && s.stages[t].msg in s'.sent &&
      HasId(s', s.stages[t].msg, s'.filter.mem[s'.filter.threads[t].ptr])
  {
    DoKeepsInv(s, Deliver(t, true));
  }

  lemma {:induction false} RememberTells(s: Sink, cs: seq<Call>, t: Tid)
    requires Inv(s) && Can(s, Remember(t)) && Inv(Do(s, Remember(t))) && StageTells(s, cs, t)
    ensures StageTells(Do(s, Remember(t)), cs + [Remember(t)], t)
  {
    hide Can, Do;
    var cs', s' := cs + [Remember(t)], Do(s, Remember(t));
    assert forall k :: 0 <= k < |cs| ==> cs'[k] == cs[k];
    RememberKeepsId(s, t);
    if s'.stages[t].Record? {
      var msg, i, l, d :| Delivered(cs, t, msg, i, l, d) && msg in s.sent &&
        HasId(s, msg, s.filter.mem[s.filter.threads[t].ptr]);
      assert Delivered(cs', t, msg, i, l, d);
      assert HasId(s', msg, s'.filter.mem[s'.filter.threads[t].ptr]);
    }
  }

  lemma {:induction false} RememberKeepsId(s: Sink, t: Tid)
    requires Inv(s) && Can(s, Remember(t))
    ensures
      var s' := Do(s, Remember(t));
      Inv(s') && t in s'.stages && t in s.stages && s.stages[t] == Record &&
      s'.identify == s.identify && s'.sent == s.sent &&
      (s'.stages[t] == Ready || s'.stages[t] == Record) &&
      (s'.stages[t] == Record ==>
        s'.filter.mem[s'.filter.threads[t].ptr] == s.filter.mem[s.filter.threads[t].ptr])
  {
    DoKeepsInv(s, Remember(t));
  }

  lemma {:induction false} ActorTells(s: Sink, cs: seq<Call>, c: Call)
    requires Inv(s) && Can(s, c) && c.t in s.stages && StageTells(s, cs, c.t)
    requires Inv(Do(s, c)) && c.t in Do(s, c).stages
    ensures StageTells(Do(s, c), cs + [c], c.t)
  {
    hide Inv, Can, Do, StageTells;
    match c
    case Submit(t, msg) => SubmitTells(s, cs, t, msg);
    case Limit(t, allowed) => LimitTells(s, cs, t, allowed);
    case Deliver(t, ok) => DeliverTells(s, cs, t, ok);
    case Remember(t) => RememberTells(s, cs, t);
  }

  lemma {:induction false} DoFrame(s: Sink, c: Call, t: Tid)
    requires Inv(s) && Can(s, c) && t in s.stages && t != c.t
    ensures
      var s' := Do(s, c);
      && t in s'.stages && s'.stages[t] == s.stages[t] && s.sent <= s'.sent && s'.identify == s.identify
      && t in s'.filter.threads && s'.filter.threads[t] == s.filter.threads[t]
      && forall p :: p in s.filter.mem ==> p in s'.filter.mem && s'.filter.mem[p] == s.filter.mem[p]
  {
  }

  lemma {:induction false} StagesTell(s: Sink, cs: seq<Call>, t: Tid)
    requires Init(s) && Inv(s) && Run(s, cs) && t in Final(s, cs).stages
    ensures StageTells(Final(s, cs), cs, t)
    decreases |cs|
  {
    hide Inv, Init, Can, Do, StageTells, HasId;
    if cs == [] {
      StartTells(s, t);
    } else {
      RunSplit(s, cs);
      var front, c := cs[..|cs| - 1], cs[|cs| - 1];
      assert cs == front + [c];
      SameStages(Final(s, front), c);
      StagesTell(s, front, t);
      if t == c.t {
        ActorTells(Final(s, front), front, c);
      } else {
        DoFrame(Final(s, front), c, t);
        OthersTell(Final(s, front), Final(s, cs), front, c, t);
      }
    }
  }

  lemma {:induction false} StartTells(s: Sink, t: Tid)
    requires Init(s) && Inv(s) && t in s.stages
    ensures StageTells(s, [], t)
  {
  }

  lemma {:induction false} SameStages(s: Sink, c: Call)
    requires Inv(s) && Can(s, c)
    ensures c.t in s.stages && Do(s, c).stages.Keys == s.stages.Keys
  {
  }

  /** Done is never a lie: in every run, a call that answers Done has submitted a message, passed the
      limiter, had this very message delivered, and has just completed the Add of its identity. */
  lemma {:induction false} DoneMeansDelivered(s: Sink, cs: seq<Call>, c: Call)
    requires Init(s) && Run(s, cs) && Can(Final(s, cs), c) && Outcome(Final(s, cs), c) == Done
    ensures
      exists msg, i, l, d ::
        Delivered(cs, c.t, msg, i, l, d) && DeliveredIn(s, cs, msg) &&
        IdFromMessage(msg).Success? &&
        Writes(Final(s, cs), c, s.filter.index(IdFromMessage(msg).value)) == Some(IdFromMessage(msg).value)
  {
    var f := Final(s, cs);
    RepliesAre(f, c);
    StagesTell(s, cs, c.t);
    var msg, i, l, d :| Delivered(cs, c.t, msg, i, l, d) && msg in f.sent &&
      HasId(f, msg, f.filter.mem[f.filter.threads[c.t].ptr]);
    SentWasDelivered(s, cs, msg);
    assert f.identify(msg) == IdFromMessage(msg);
    SameFilterShape(s, cs);
  }

  lemma {:induction false} SameFilterShape(s: Sink, cs: seq<Call>)
    requires Inv(s) && Run(s, cs)
    ensures Final(s, cs).filter.index == s.filter.index
    decreases |cs|
  {
    if cs != [] {
      DoKeepsInv(s, cs[0]);
      SameFilterShape(Do(s, cs[0]), cs[1..]);
    }
  }

  ghost predicate Leads(s: Sink, cs: seq<Call>, s': Sink)
    requires Inv(s)
  {
    Run(s, cs) && Final(s, cs) == s'
  }

  lemma {:induction false} LeadsOn(s: Sink, c: Call, cs: seq<Call>, s': Sink)
    requires Inv(s) && Can(s, c) && Inv(Do(s, c)) && Leads(Do(s, c), cs, s')
    ensures Leads(s, [c] + cs, s')
  {
    assert ([c] + cs)[0] == c && ([c] + cs)[1..] == cs;
  }

  /** A call that nobody disturbs: a message that the filter does not show is submitted, let through, delivered
      and remembered in five steps, the last of which answers Done. */
  lemma {:induction false} CallAlone(s: Sink, t: Tid, msg: Message) returns (s': Sink)
    requires Inv(s) && t in s.stages && s.stages[t] == Ready && s.identify(msg).Success?
    requires s.filter.index(s.identify(msg).value) < |s.filter.slots| && !Contains(s.filter, s.identify(msg).value)
    ensures Leads(s, [Submit(t, msg)] + ([Limit(t, true)] + ([Deliver(t, true)] + ([Remember(t)] + []))), s')
    ensures Can(s', Remember(t)) && Outcome(s', Remember(t)) == Done && msg in s'.sent
    ensures s'.sent == s.sent + {msg} && Do(s', Remember(t)).stages == s.stages
  {
    hide Inv, Can, Do, Leads, Outcome;
    var s1 := SubmitAlone(s, t, msg);
    var s2 := LimitAlone(s1, t, msg);
    var s3 := DeliverAlone(s2, t, msg);
    s' := LoadAlone(s3, t);
    LeadsNowhere(s');
    LeadsOn(s3, Remember(t), [], s');
    LeadsOn(s2, Deliver(t, true), [Remember(t)] + [], s');
    LeadsOn(s1, Limit(t, true), [Deliver(t, true)] + ([Remember(t)] + []), s');
    LeadsOn(s, Submit(t, msg), [Limit(t, true)] + ([Deliver(t, true)] + ([Remember(t)] + [])), s');
    assert Do(s', Remember(t)).stages == s.stages;
  }

  lemma {:induction false} LeadsNowhere(s: Sink)
    requires Inv(s)
    ensures Leads(s, [], s)
  {
  }

  lemma {:induction false} SubmitAlone(s: Sink, t: Tid, msg: Message) returns (s': Sink)
    requires Inv(s) && t in s.stages && s.stages[t] == Ready && s.identify(msg).Success?
    requires s.filter.index(s.identify(msg).value) < |s.filter.slots| && !Contains(s.filter, s.identify(msg).value)
    ensures Can(s, Submit(t, msg)) && s' == Do(s, Submit(t, msg)) == At(s, t, Gate(msg)) && Inv(s')
  {
    s' := Do(s, Submit(t, msg));
    DoKeepsInv(s, Submit(t, msg));
  }

  lemma {:induction false} LimitAlone(s: Sink, t: Tid, msg: Message) returns (s': Sink)
    requires Inv(s) && t in s.stages && s.stages[t] == Gate(msg)
    ensures Can(s, Limit(t, true)) && s' == Do(s, Limit(t, true)) == At(s, t, Send(msg)) && Inv(s')
  {
    s' := Do(s, Limit(t, true));
    DoKeepsInv(s, Limit(t, true));
  }

  lemma {:induction false} DeliverAlone(s: Sink, t: Tid, msg: Message) returns (s': Sink)
    requires Inv(s) && t in s.stages && s.stages[t] == Send(msg)
    ensures Can(s, Deliver(t, true)) && s' == Do(s, Deliver(t, true)) && Inv(s')
    ensures s'.stages == s.stages[t := Record] && s'.sent == s.sent + {msg} && Can(s', Remember(t))
    ensures t in s'.filter.threads && s'.filter.threads[t].Load?
  {
    s' := Do(s, Deliver(t, true));
    DeliveredIsNoted(s, t);
  }

  lemma {:induction false} LoadAlone(s: Sink, t: Tid) returns (s': Sink)
    requires Inv(s) && Can(s, Remember(t)) && t in s.filter.threads && s.filter.threads[t].Load?
    ensures s' == Do(s, Remember(t)) && Inv(s') && Can(s', Remember(t)) && Outcome(s', Remember(t)) == Done
    ensures s'.sent == s.sent && s'.stages == s.stages
    ensures Do(s', Remember(t)).stages == s.stages[t := Ready]
  {
    RememberIs(s, t);
    UndisturbedAdd(s.filter, t);
    s' := Do(s, Remember(t));
    RememberIs(s', t);
  }

  // ---- how long suppression lasts

  /** The id that a step writes into slot `j`, if it does: an Add succeeds. */
  ghost function Writes(s: Sink, c: Call, j: nat): Option<Id>
    requires Inv(s) && Can(s, c)
  {
    if c.Remember? && Swaps(s.filter, c.t) && SlotOf(s.filter, c.t) == j
    then Some(s.filter.mem[s.filter.threads[c.t].ptr])
    else None
  }

  /** The id of the last Add that succeeds in slot `j` during a run. */
  ghost function LastAdded(s: Sink, cs: seq<Call>, j: nat): Option<Id>
    requires Inv(s) && Run(s, cs)
    decreases |cs|
  {
    if cs == [] then None
    else
      DoKeepsInv(s, cs[0]);
      var later := LastAdded(Do(s, cs[0]), cs[1..], j);
      if later.Some? then later else Writes(s, cs[0], j)
  }

  /** What slot `j` of the filter shows. */
  ghost function Shown(s: Sink, j: nat): Option<Id>
    requires Inv(s) && j < |s.filter.slots|
  {
    View(s.filter)[j]
  }

  lemma {:induction false} DoShows(s: Sink, c: Call, j: nat)
    requires Inv(s) && Can(s, c) && j < |s.filter.slots|
    ensures Inv(Do(s, c)) && |Do(s, c).filter.slots| == |s.filter.slots| && Do(s, c).filter.index == s.filter.index
    ensures Shown(Do(s, c), j) == if Writes(s, c, j).Some? then Writes(s, c, j) else Shown(s, j)
  {
    DoKeepsInv(s, c);
    match c
    case Deliver(t, ok) => if ok { StartAddKeepsValid(s.filter, t, s.identify(s.stages[t].msg).value); }
    case Remember(t) =>
      AccessFrame(s.filter, t);
      AccessRefinesExchange(s.filter, t);
    case _ =>
  }

  lemma {:induction false} RunShows(s: Sink, cs: seq<Call>, j: nat)
    requires Inv(s) && Run(s, cs) && j < |s.filter.slots|
    ensures |Final(s, cs).filter.slots| == |s.filter.slots| && Final(s, cs).filter.index == s.filter.index
    ensures Shown(Final(s, cs), j) == if LastAdded(s, cs, j).Some? then LastAdded(s, cs, j) else Shown(s, j)
    decreases |cs|
  {
    hide Inv, Can, Do, Shown, Writes;
    if cs != [] {
      DoShows(s, cs[0], j);
      RunShows(Do(s, cs[0]), cs[1..], j);
    }
  }

  lemma {:induction false} SubmitAnswers(s: Sink, t: Tid, msg: Message)
    requires Inv(s) && Can(s, Submit(t, msg)) && s.identify(msg).Success?
    ensures s.filter.index(s.identify(msg).value) < |s.filter.slots|
    ensures
      var id := s.identify(msg).value;
      Outcome(s, Submit(t, msg)) == AlreadySent <==> Shown(s, s.filter.index(id)) == Some(id)
  {
  }

  /** Exactly when the sink suppresses a message, in every run: when the last Add that succeeded in the slot
      of its identity was an Add of that identity. */
  lemma {:induction false} SuppressedIff(s: Sink, cs: seq<Call>, t: Tid, msg: Message)
    requires Init(s) && Run(s, cs) && Can(Final(s, cs), Submit(t, msg)) && s.identify(msg).Success?
    ensures
      var id := s.identify(msg).value;
      Outcome(Final(s, cs), Submit(t, msg)) == AlreadySent <==> LastAdded(s, cs, s.filter.index(id)) == Some(id)
  {
    var j := s.filter.index(s.identify(msg).value);
    RunShows(s, cs, j);
    SubmitAnswers(Final(s, cs), t, msg);
  }

  /** No Add of another id succeeds in the slot of `id`. */
  ghost predicate NeverReplaced(s: Sink, cs: seq<Call>, id: Id)
    requires Inv(s) && Run(s, cs)
    decreases |cs|
  {
    cs == [] ||
    (Writes(s, cs[0], s.filter.index(id)) in {None, Some(id)} &&
     (DoKeepsInv(s, cs[0]); NeverReplaced(Do(s, cs[0]), cs[1..], id)))
  }

  lemma {:induction false} NothingElseAdded(s: Sink, cs: seq<Call>, id: Id)
    requires Inv(s) && Run(s, cs) && NeverReplaced(s, cs, id) && s.filter.index(id) < |s.filter.slots|
    ensures LastAdded(s, cs, s.filter.index(id)) in {None, Some(id)}
    decreases |cs|
  {
    hide Inv, Can, Do, Shown, Writes;
    if cs != [] {
      DoShows(s, cs[0], s.filter.index(id));
      NothingElseAdded(Do(s, cs[0]), cs[1..], id);
    }
  }

  /** Suppression lasts: once the Add of an identity has succeeded, however often it was disturbed before, in
      every continuation every message with that identity is suppressed until an Add of another identity
      succeeds in the same slot. */
  lemma {:induction false} SuppressionLasts(s: Sink, t: Tid, after: seq<Call>, u: Tid, again: Message)
    requires Inv(s) && Can(s, Remember(t)) && Swaps(s.filter, t)
    requires Inv(Do(s, Remember(t))) && Run(Do(s, Remember(t)), after)
    requires
      var id := s.filter.mem[s.filter.threads[t].ptr];
      NeverReplaced(Do(s, Remember(t)), after, id) && s.identify(again) == Success(id) &&
      Can(Final(Do(s, Remember(t)), after), Submit(u, again))
    ensures Outcome(Final(Do(s, Remember(t)), after), Submit(u, again)) == AlreadySent
  {
    hide Do, Outcome;
    var id, s1 := s.filter.mem[s.filter.threads[t].ptr], Do(s, Remember(t));
    var j := s.filter.index(id);
    DoKeepsInv(s, Remember(t));
    DoShows(s, Remember(t), j);
    RunShows(s1, after, j);
    NothingElseAdded(s1, after, id);
    SubmitAnswers(Final(s1, after), u, again);
  }

  /** A throttled call and a failed send leave no trace: the retry is answered like the first try. */
  lemma {:induction false} FailureLeavesNoTrace(s: Sink, c: Call)
    requires Inv(s) && Can(s, c) && ((c.Limit? && !c.allowed) || (c.Deliver? && !c.ok))
    ensures
      var msg, s' := s.stages[c.t].msg, Do(s, c);
      && s'.filter == s.filter && s'.sent == s.sent
      && Inv(s') && Can(s', Submit(c.t, msg))
      && forall idle :: idle in s.stages && s.stages[idle] == Ready ==>
           Outcome(s', Submit(c.t, msg)) == Outcome(s, Submit(idle, msg))
  {
    DoKeepsInv(s, c);
  }
}

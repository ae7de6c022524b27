/** The identity string of an execution event. */
module EventIdentity {
  import opened Options
  import opened Text

  /** Absent parts of a message read as empty strings. */
  datatype ExecutionId = ExecutionId(project: string, domain: string, name: string)

  /** Phases are enum numbers and may be any integer; counters are unsigned. */
  datatype Message =
    | WorkflowEvent(wid: ExecutionId, phase: int)
    | NodeEvent(wid: ExecutionId, nodeId: string, retryGroup: string, phase: int)
    | TaskEvent(wid: ExecutionId, nodeId: string, taskName: string, taskVersion: string,
                retryAttempt: nat, phase: int, phaseVersion: nat)
    | UnknownEvent

  const SEPARATOR := ':'

  function Fields(m: Message): seq<string> {
    match m
    case WorkflowEvent(wid, phase) => [wid.project, wid.domain, wid.name, IntToString(phase)]
    case NodeEvent(wid, nodeId, retryGroup, phase) =>
      [wid.project, wid.domain, wid.name, nodeId, retryGroup, IntToString(phase)]
    case TaskEvent(wid, nodeId, taskName, taskVersion, retryAttempt, phase, phaseVersion) =>
      [wid.project, wid.domain, wid.name, nodeId, taskName, taskVersion,
       NatToString(retryAttempt), IntToString(phase), NatToString(phaseVersion)]
    case UnknownEvent => []
  }

  function IdFromMessage(m: Message): Result<string, string> {
    if m.UnknownEvent? then Failure("unknown event type") else Success(Join(Fields(m), SEPARATOR))
  }

  lemma {:induction false} JoinCons(part: string, rest: seq<string>)
    requires rest != []
    ensures Join([part] + rest, SEPARATOR) == part + [SEPARATOR] + Join(rest, SEPARATOR)
  {
    assert ([part] + rest)[1..] == rest;
  }

  /** The identity is the text that the format prints: the fields in this order, with colons between. */
  lemma {:induction false} IdentityReads(m: Message)
    ensures
      match m
      case WorkflowEvent(wid, phase) =>
        IdFromMessage(m) ==
        Success(wid.project + [':'] + (wid.domain + [':'] + (wid.name + [':'] + IntToString(phase))))
      case NodeEvent(wid, nodeId, retryGroup, phase) =>
        IdFromMessage(m) ==
        Success(wid.project + [':'] + (wid.domain + [':'] + (wid.name + [':'] +
                (nodeId + [':'] + (retryGroup + [':'] + IntToString(phase))))))
      case TaskEvent(wid, nodeId, taskName, taskVersion, retryAttempt, phase, phaseVersion) =>
        IdFromMessage(m) ==
        Success(wid.project + [':'] + (wid.domain + [':'] + (wid.name + [':'] +
                (nodeId + [':'] + (taskName + [':'] + (taskVersion + [':'] +
                (NatToString(retryAttempt) + [':'] + (IntToString(phase) + [':'] + NatToString(phaseVersion)))))))))
      case UnknownEvent => IdFromMessage(m).Failure?
  {
    if !m.UnknownEvent? { JoinUnfolds(Fields(m)); }
  }

  lemma {:induction false} JoinUnfolds(fields: seq<string>)
    requires |fields| in {4, 6, 9}
    ensures
      var f, text := fields, Join(fields, SEPARATOR);
      if |f| == 4 then text == f[0] + [':'] + (f[1] + [':'] + (f[2] + [':'] + f[3]))
      else if |f| == 6 then
        text == f[0] + [':'] + (f[1] + [':'] + (f[2] + [':'] + (f[3] + [':'] + (f[4] + [':'] + f[5]))))
      else
        text == f[0] + [':'] + (f[1] + [':'] + (f[2] + [':'] + (f[3] + [':'] + (f[4] + [':'] +
                (f[5] + [':'] + (f[6] + [':'] + (f[7] + [':'] + f[8])))))))
  {
    forall i | 0 <= i < |fields| - 1
      ensures Join(fields[i..], SEPARATOR) == fields[i] + [':'] + Join(fields[i + 1..], SEPARATOR)
    {
      assert fields[i..] == [fields[i]] + fields[i + 1..];
      JoinCons(fields[i], fields[i + 1..]);
    }
    assert fields[0..] == fields;
    assert fields[|fields| - 1..] == [fields[|fields| - 1]];
  }

  /** The names in the message contain no separator. */
  ghost predicate SeparatorFree(m: Message) {
    forall i :: 0 <= i < |Fields(m)| ==> SEPARATOR !in Fields(m)[i]
  }

  /** For all messages: two identities clash exactly when the printed fields, cut at every colon,
      form the same list. */
  lemma {:induction false} SameIdIff(a: Message, b: Message)
    requires !a.UnknownEvent? && !b.UnknownEvent?
    ensures IdFromMessage(a) == IdFromMessage(b) <==>
      SplitAll(Fields(a), SEPARATOR) == SplitAll(Fields(b), SEPARATOR)
  {
    JoinEqualIff(Fields(a), Fields(b), SEPARATOR);
  }

  lemma {:induction false} FieldsInjective(a: Message, b: Message)
    requires !a.UnknownEvent? && Fields(a) == Fields(b)
    ensures a == b
  {
    var f, g := Fields(a), Fields(b);
    assert |f| == |g|;
    assert forall i :: 0 <= i < |f| ==> f[i] == g[i];
    IntToStringInjective(a.phase, b.phase);
    if a.TaskEvent? {
      NatToStringInjective(a.retryAttempt, b.retryAttempt);
      NatToStringInjective(a.phaseVersion, b.phaseVersion);
    }
  }

  /** Event identity is injective: without colons in the names, messages of any kinds share an
      identity only if they are of the same kind and agree on every field. */
  lemma {:induction false} IdentityIsInjective(a: Message, b: Message)
    requires !a.UnknownEvent? && !b.UnknownEvent? && SeparatorFree(a) && SeparatorFree(b)
    requires IdFromMessage(a) == IdFromMessage(b)
    ensures a == b
  {
    SameIdIff(a, b);
    SplitAllFree(Fields(a), SEPARATOR);
    SplitAllFree(Fields(b), SEPARATOR);
    FieldsInjective(a, b);
  }

  /** With colons allowed it is not: every node event has the identity of a workflow event whose
      execution name contains two colons. */
  lemma {:induction false} ColonClash(wid: ExecutionId, nodeId: string, retryGroup: string, phase: int)
    ensures
      var name := wid.name + [SEPARATOR] + nodeId + [SEPARATOR] + retryGroup;
      IdFromMessage(NodeEvent(wid, nodeId, retryGroup, phase)) ==
      IdFromMessage(WorkflowEvent(wid.(name := name), phase))
  {
    var name, last := wid.name + [SEPARATOR] + nodeId + [SEPARATOR] + retryGroup, [IntToString(phase)];
    var tail := [wid.name, nodeId, retryGroup] + last;
    JoinCons(retryGroup, last);
    JoinCons(nodeId, [retryGroup] + last);
    JoinCons(wid.name, [nodeId, retryGroup] + last);
    JoinCons(name, last);
    assert [nodeId] + ([retryGroup] + last) == [nodeId, retryGroup] + last;
    assert [wid.name] + ([nodeId, retryGroup] + last) == tail;
    assert Join(tail, SEPARATOR) == Join([name] + last, SEPARATOR);
    SamePrefix(wid.project, wid.domain, tail, [name] + last);
    assert Fields(NodeEvent(wid, nodeId, retryGroup, phase)) == [wid.project, wid.domain] + tail;
    assert Fields(WorkflowEvent(wid.(name := name), phase)) == [wid.project, wid.domain] + ([name] + last);
  }

  lemma {:induction false} SamePrefix(project: string, domain: string, a: seq<string>, b: seq<string>)
    requires a != [] && b != [] && Join(a, SEPARATOR) == Join(b, SEPARATOR)
    ensures Join([project, domain] + a, SEPARATOR) == Join([project, domain] + b, SEPARATOR)
  {
    JoinCons(domain, a);
    JoinCons(domain, b);
    JoinCons(project, [domain] + a);
    JoinCons(project, [domain] + b);
    assert [project, domain] + a == [project] + ([domain] + a);
    assert [project, domain] + b == [project] + ([domain] + b);
  }
}

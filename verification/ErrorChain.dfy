/** Errors with codes and causes, and the walk that looks for a code along the chain of causes. */
module ErrorChain {
  import opened Options

  type Code = string

  /** `Coded` and `CodedCause` are made by the errors package. The other two kinds of link have no
      code: a `Causer` exposes Cause, a `Wrapper` only Unwrap. A cause may be nil. */
  datatype Error =
    | Plain(message: string)
    | Coded(code: Code, message: string)
    | CodedCause(code: Code, message: string, cause: Option<Error>)
    | Causer(message: string, cause: Option<Error>)
    | Wrapper(message: string, cause: Option<Error>)

  function Wrapf(code: Code, cause: Option<Error>, message: string): Error {
    CodedCause(code, message, cause)
  }

  function GetErrorCode(e: Error): Option<Code> {
    match e
    case Coded(code, _) => Some(code)
    case CodedCause(code, _, _) => Some(code)
    case _ => None
  }

  /** The next link, nil at the end of the chain. */
  function CauseOf(link: Error): Option<Error> {
    match link
    case Plain(_) => None
    case Coded(_, _) => None
    case CodedCause(_, _, cause) => cause
    case Causer(_, cause) => cause
    case Wrapper(_, cause) => cause
  }

  /** The chain of an error: the error itself, then the chain of its cause. */
  ghost function Links(e: Option<Error>): seq<Error> {
    match e
    case None => []
    case Some(link) =>
      match link
      case Plain(_) => [link]
      case Coded(_, _) => [link]
      case CodedCause(_, _, cause) => [link] + Links(cause)
      case Causer(_, cause) => [link] + Links(cause)
      case Wrapper(_, cause) => [link] + Links(cause)
  }

  /** Some link of the chain carries the code. */
  ghost predicate CausedBy(e: Option<Error>, code: Code) {
    exists i :: 0 <= i < |Links(e)| && GetErrorCode(Links(e)[i]) == Some(code)
  }

  lemma {:induction false} FirstLink(link: Error, code: Code)
    ensures CausedBy(Some(link), code) <==> GetErrorCode(link) == Some(code) || CausedBy(CauseOf(link), code)
  {
    var rest := Links(CauseOf(link));
    var links := [link] + rest;
    assert links == Links(Some(link)) && links[0] == link;
    if CausedBy(CauseOf(link), code) {
      var i :| 0 <= i < |rest| && GetErrorCode(rest[i]) == Some(code);
      assert links[i + 1] == rest[i];
    }
  }

  /** The codes that are found, kind by kind: an error with a code has its own, one with a cause those of the
      cause, and no other. */
  lemma {:induction false} CausesAre(link: Error, wanted: Code)
    ensures !CausedBy(None, wanted)
    ensures CausedBy(Some(link), wanted) <==>
      match link
      case Plain(_) => false
      case Coded(code, _) => wanted == code
      case CodedCause(code, _, cause) => wanted == code || CausedBy(cause, wanted)
      case Causer(_, cause) => CausedBy(cause, wanted)
      case Wrapper(_, cause) => CausedBy(cause, wanted)
  {
    FirstLink(link, wanted);
  }

  method IsCausedBy(err: Option<Error>, code: Code) returns (found: bool)
    ensures found <==> CausedBy(err, code)
  {
    var e := err;
    while e != None
      invariant CausedBy(err, code) <==> CausedBy(e, code)
      decreases e
    {
      var link := e.value;
      FirstLink(link, code);
      if GetErrorCode(link) == Some(code) {
        return true;
      }
      match link
      case CodedCause(_, _, cause) => e := cause;
      case Causer(_, cause) => e := cause;
      case Wrapper(_, cause) => e := cause;
      case _ => return false;
    }
    return false;
  }

  /** Wrapping adds its own code to the codes that are found, and loses none. */
  lemma {:induction false} WrapKeepsCauses(code: Code, cause: Option<Error>, message: string, wanted: Code)
    ensures CausedBy(Some(Wrapf(code, cause, message)), wanted) <==> code == wanted || CausedBy(cause, wanted)
  {
    FirstLink(Wrapf(code, cause, message), wanted);
  }
}

/**
  TestCase.convert_exception_to_str: the text of an exception, taken from the
  first of its attributes `msg`, `message` and `args` that it has, or from
  the exception itself.
 */
module ExceptionText {
  import opened Python

  /** The message of IndexError for `args[0]` on an empty args tuple */
  const EmptyArgsMessage := "tuple index out of range"

  /**
    convert_exception_to_str(err). An `args` attribute that is an empty tuple
    makes `args[0]` raise IndexError, which the helper does not catch.
   */
  function ConvertExceptionToStr(err: Exc): (r: Outcome<string>)
    // a present msg wins over every other attribute
    ensures err.msgAttr.Some? ==> r == Return(ToStr(err.msgAttr.value))
    // else a non-empty message is used, and an empty one falls back to the error itself
    ensures err.msgAttr.None? && err.messageAttr.Some? ==>
      r == Return(if Truthy(err.messageAttr.value) then ToStr(err.messageAttr.value) else err.text)
    // else the first positional argument
    ensures err.msgAttr.None? && err.messageAttr.None? && err.argsAttr.Some? && err.argsAttr.value != [] ==>
      r == Return(ToStr(err.argsAttr.value[0]))
    // else the error itself
    ensures err.msgAttr.None? && err.messageAttr.None? && err.argsAttr.None? ==> r == Return(err.text)
    // the only failure: an empty args tuple reached as the last resort
    ensures r.Raise? <==> err.msgAttr.None? && err.messageAttr.None? && err.argsAttr == Some([])
    ensures r.Raise? ==> r.exc == Raised(IndexError, EmptyArgsMessage)
  {
    match (err.msgAttr, err.messageAttr, err.argsAttr)
    case (Some(m), _, _) => Return(ToStr(m))
    case (None, Some(m), _) => Return(if Truthy(m) then ToStr(m) else err.text)
    case (None, None, Some(args)) =>
      if args == [] then Raise(Raised(IndexError, EmptyArgsMessage)) else Return(ToStr(args[0]))
    case (None, None, None) => Return(err.text)
  }

  /** Only the attribute of highest priority that is present decides the text. */
  lemma MsgDecides(e1: Exc, e2: Exc)
    requires e1.msgAttr.Some? && e1.msgAttr == e2.msgAttr
    ensures ConvertExceptionToStr(e1) == ConvertExceptionToStr(e2)
  {
  }

  /** A built-in exception raised with a message is converted back to that message. */
  lemma RaisedRoundTrip(kind: Kind, message: string)
    ensures ConvertExceptionToStr(Raised(kind, message)) == Return(message)
  {
  }
}

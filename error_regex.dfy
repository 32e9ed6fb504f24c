/**
  TestCase.assertErrorRegex(error, regex, call, *args, **kwargs): the call
  must raise an exception of the expected kind whose text the regex finds.
  The callable is seen only through what it did; the regex only through its
  pattern and its search.
 */
module ErrorRegex {
  import opened Python
  import opened ExceptionText

  /** A compiled regex: its pattern and whether regex.search(text) finds a match */
  datatype Regex = Regex(pattern: string, search: string -> bool)

  /** ['='.join([k, str(v)]) for (k, v) in kwargs.items()] */
  function KeywordStrings(kwargs: seq<(string, Value)>): (r: seq<string>)
    ensures |r| == |kwargs|
    ensures forall i :: 0 <= i < |kwargs| ==> r[i] == kwargs[i].0 + "=" + ToStr(kwargs[i].1)
  {
    if kwargs == [] then [] else [kwargs[0].0 + "=" + ToStr(kwargs[0].1)] + KeywordStrings(kwargs[1..])
  }

  /** ', '.join(map(str, args) + str_kwargs) */
  function FormatArgs(args: seq<Value>, kwargs: seq<(string, Value)>): (r: string)
    ensures args == [] && kwargs == [] ==> r == ""
    ensures |args| == 1 && kwargs == [] ==> r == ToStr(args[0])
    ensures args == [] && |kwargs| == 1 ==> r == kwargs[0].0 + "=" + ToStr(kwargs[0].1)
  {
    Join(", ", MapToStr(args) + KeywordStrings(kwargs))
  }

  /** Positional arguments come first, then the keyword ones, one ", " between the two groups. */
  lemma FormatArgsOrder(args: seq<Value>, kwargs: seq<(string, Value)>)
    ensures args == [] ==> FormatArgs(args, kwargs) == Join(", ", KeywordStrings(kwargs))
    ensures kwargs == [] ==> FormatArgs(args, kwargs) == Join(", ", MapToStr(args))
    ensures args != [] && kwargs != [] ==>
      FormatArgs(args, kwargs) == Join(", ", MapToStr(args)) + ", " + Join(", ", KeywordStrings(kwargs))
  {
    if args == [] {
      assert MapToStr(args) + KeywordStrings(kwargs) == KeywordStrings(kwargs);
    } else if kwargs == [] {
      assert MapToStr(args) + KeywordStrings(kwargs) == MapToStr(args);
    } else {
      JoinAppend(", ", MapToStr(args), KeywordStrings(kwargs));
    }
  }

  /** The failure raised when the call returns normally */
  function NoErrorMessage(callName: string, args: seq<Value>, kwargs: seq<(string, Value)>): (m: string)
    ensures StartsWith(m, "Expected errors with " + callName + "(")
    ensures EndsWith(m, FormatArgs(args, kwargs) + ") call should occur")
  {
    "Expected errors with " + callName + "(" + FormatArgs(args, kwargs) + ") call should occur"
  }

  /** The failure raised when the regex does not find the text */
  function NoMatchMessage(pattern: string, text: string): (m: string)
    ensures StartsWith(m, "Pattern '" + pattern + "'")
    ensures EndsWith(m, "' is found in '" + text + "'")
  {
    "Pattern '" + pattern + "' is found in '" + text + "'"
  }

  /** The body of `except error, err`: the regex must find the exception's text. */
  function CheckCaught(err: Exc, regex: Regex): (r: Outcome<()>)
    ensures r.Return? <==> ConvertExceptionToStr(err).Return? && regex.search(ConvertExceptionToStr(err).value)
    ensures ConvertExceptionToStr(err).Return? && r.Raise? ==>
      r.exc == Raised(AssertionError, NoMatchMessage(regex.pattern, ConvertExceptionToStr(err).value))
    ensures ConvertExceptionToStr(err).Raise? ==> r == Raise(ConvertExceptionToStr(err).exc)
  {
    match ConvertExceptionToStr(err)
    case Raise(e) => Raise(e)
    case Return(text) =>
      if regex.search(text) then Return(())
      else Raise(Raised(AssertionError, NoMatchMessage(regex.pattern, text)))
  }

  /**
    assertErrorRegex. `error` is the set of exception kinds the except clause
    catches (the class and its subclasses); `result` is what the call did.
    The AssertionError for a call that returns is raised inside the try, so
    it is itself caught when `error` covers AssertionError.
   */
  function AssertErrorRegex(
    error: set<Kind>, regex: Regex, callName: string,
    args: seq<Value>, kwargs: seq<(string, Value)>, result: Outcome<Value>): (r: Outcome<()>)
    // a call that returns fails the test, naming the call and its arguments
    ensures result.Return? && AssertionError !in error ==>
      r == Raise(Raised(AssertionError, NoErrorMessage(callName, args, kwargs)))
    // ... unless AssertionError is expected, when the regex decides on that very message
    ensures result.Return? && AssertionError in error ==>
      (r.Return? <==> regex.search(NoErrorMessage(callName, args, kwargs)))
    // an expected kind passes exactly when its text is found
    ensures result.Raise? && result.exc.kind in error ==> r == CheckCaught(result.exc, regex)
    // any other kind propagates unchanged
    ensures result.Raise? && result.exc.kind !in error ==> r == Raise(result.exc)
  {
    var raised := match result
      case Return(_) => Raised(AssertionError, NoErrorMessage(callName, args, kwargs))
      case Raise(e) => e;
    if raised.kind in error then CheckCaught(raised, regex) else Raise(raised)
  }

  /**
    assertErrorRegex(ValueError, "bad value", f, 1, 2): passes when f raises
    ValueError("bad value: 3"), lets a TypeError through, and fails naming
    f(1, 2) when f returns.
   */
  lemma ValueErrorExample()
    ensures
      var valueError, typeError := OtherKind("ValueError"), OtherKind("TypeError");
      var args := [Obj("1", true), Obj("2", true)];
      var regex := Regex("bad value", (t: string) => |t| >= 9 && t[..9] == "bad value");
      && AssertErrorRegex({valueError}, regex, "f", args, [],
           Raise(Raised(valueError, "bad value: 3"))) == Return(())
      && AssertErrorRegex({valueError}, regex, "f", args, [],
           Raise(Raised(typeError, "oops"))) == Raise(Raised(typeError, "oops"))
      && AssertErrorRegex({valueError}, regex, "f", args, [], Return(NoneValue))
         == Raise(Raised(AssertionError, "Expected errors with f(1, 2) call should occur"))
  {
    var valueError := OtherKind("ValueError");
    var args := [Obj("1", true), Obj("2", true)];
    FormatOneTwo();
    var m := NoErrorMessage("f", args, []);
    assert m == "Expected errors with f(1, 2) call should occur";
    assert ConvertExceptionToStr(Raised(valueError, "bad value: 3")) == Return("bad value: 3");
  }

  /** f(1, 2) is shown as "1, 2" */
  lemma FormatOneTwo()
    ensures FormatArgs([Obj("1", true), Obj("2", true)], []) == "1, 2"
  {
    var args := [Obj("1", true), Obj("2", true)];
    assert MapToStr(args) + KeywordStrings([]) == ["1", "2"];
    assert ["1", "2"][1..] == ["2"];
    assert Join(", ", ["1", "2"]) == "1, 2";
  }
}

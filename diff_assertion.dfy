/**
  TestCase.assertEqual: on a mismatch the failure message carries a
  line-oriented diff of the two values, cut to a maximum number of lines.
  The comparison itself is the base framework's and nicediff is an outside
  function, so both come in as parameters.
 */
module DiffAssertion {
  import opened Python

  /** TestCase.ASSERT_MAX_DIFF: the most diff lines a failure message shows */
  const ASSERT_MAX_DIFF: nat := 100

  /** TestCase.DIFF_OFFSET: lines of context nicediff shows around a change */
  const DIFF_OFFSET: nat := 5

  /** nicediff(txta, txtb, offset=...): the diff as a list of lines */
  type Differ = (string, string, nat) -> seq<string>

  /** The message start: str(e), or "msg: e" when a msg is given (even an empty one). */
  function Prefix(msg: Option<string>, failure: string): (p: string)
    ensures msg.None? ==> p == failure
    ensures msg.Some? ==> p == msg.value + ": " + failure
    ensures EndsWith(p, failure)
  {
    match msg
    case None => failure
    case Some(m) => m + ": " + failure
  }

  /** The note added after "DIFF" when the diff is cut. */
  function LimitNote(maxDiff: nat, lines: nat): (note: string)
    ensures note != "" <==> lines > maxDiff
    ensures lines > maxDiff ==> note == " (first " + NatToString(maxDiff) + " lines)"
  {
    if lines > maxDiff then " (first " + NatToString(maxDiff) + " lines)" else ""
  }

  /** diff[:maxDiff]: the lines the message keeps */
  function Shown(diff: seq<string>, maxDiff: nat): (kept: seq<string>)
    ensures |kept| == if |diff| > maxDiff then maxDiff else |diff|
    ensures kept == diff[..|kept|]
  {
    if |diff| > maxDiff then diff[..maxDiff] else diff
  }

  /** "%s:\nDIFF%s:\n%s" % (prefix, limit, ''.join(diff[:maxDiff])) */
  function FailureMessage(prefix: string, diff: seq<string>, maxDiff: nat): (m: string)
    ensures StartsWith(m, prefix + ":\nDIFF")
    ensures |m| == |prefix| + 8 + |LimitNote(maxDiff, |diff|)| + |Join("", Shown(diff, maxDiff))|
  {
    prefix + ":\nDIFF" + LimitNote(maxDiff, |diff|) + ":\n" + Join("", Shown(diff, maxDiff))
  }

  /**
    The message is the prefix, the DIFF header, the note exactly when the diff
    is longer than the limit, and then text that is the start of the whole
    diff, all of it when the diff fits.
   */
  lemma FailureMessageParts(prefix: string, diff: seq<string>, maxDiff: nat)
    ensures |diff| <= maxDiff ==>
      FailureMessage(prefix, diff, maxDiff) == prefix + ":\nDIFF:\n" + Join("", diff)
    ensures |diff| > maxDiff ==>
      FailureMessage(prefix, diff, maxDiff)
      == prefix + ":\nDIFF (first " + NatToString(maxDiff) + " lines):\n" + Join("", diff[..maxDiff])
    ensures Join("", diff) == Join("", Shown(diff, maxDiff)) + Join("", diff[|Shown(diff, maxDiff)|..])
  {
    var body := Join("", Shown(diff, maxDiff));
    if |diff| <= maxDiff {
      calc {
        FailureMessage(prefix, diff, maxDiff);
        prefix + ":\nDIFF" + "" + ":\n" + body;
        { assert prefix + ":\nDIFF" + "" == prefix + ":\nDIFF"; }
        prefix + ":\nDIFF:\n" + Join("", diff);
      }
    } else {
      calc {
        FailureMessage(prefix, diff, maxDiff);
        prefix + ":\nDIFF" + " (first " + NatToString(maxDiff) + " lines)" + ":\n" + body;
        prefix + ":\nDIFF (first " + NatToString(maxDiff) + " lines):\n" + Join("", diff[..maxDiff]);
      }
    }
    ConcatPrefix(diff, |Shown(diff, maxDiff)|);
  }

  /** With the default limit the note reads " (first 100 lines)". */
  lemma DefaultLimitNote(lines: nat)
    requires lines > ASSERT_MAX_DIFF
    ensures LimitNote(ASSERT_MAX_DIFF, lines) == " (first 100 lines)"
  {
  }

  /**
    assertEqual(a, b, msg) as written. `baseFailure` is what the base
    framework's assertEqual raised: None when a == b, else str(e). A value
    that is not a string goes to pprint.pformat, but pprint is never
    imported, so that branch raises NameError.
   */
  function AssertEqualAsWritten(
    a: Value, b: Value, msg: Option<string>, baseFailure: Option<string>,
    nicediff: Differ, maxDiff: nat, diffOffset: nat): (r: Outcome<()>)
    ensures baseFailure.None? <==> r.Return?
    ensures r.Raise? && (!a.Str? || !b.Str?) ==> r.exc == Raised(NameError, PprintMissing)
  {
    match baseFailure
    case None => Return(())
    case Some(failure) =>
      if !a.Str? || !b.Str? then Raise(Raised(NameError, PprintMissing))
      else
        var diff := nicediff(a.s, b.s, diffOffset);
        Raise(Raised(AssertionError, FailureMessage(Prefix(msg, failure), diff, maxDiff)))
  }

  const PprintMissing := "global name 'pprint' is not defined"

  /** The text a value is diffed as: itself when a string, else pformat of it. */
  function TextOf(v: Value, pformat: Value -> string): (t: string)
    ensures v.Str? ==> t == v.s
    ensures !v.Str? ==> t == pformat(v)
  {
    if v.Str? then v.s else pformat(v)
  }

  /**
    assertEqual(a, b, msg) as intended, with pprint.pformat given: a mismatch
    always raises AssertionError with the diff of the two texts.
   */
  function AssertEqual(
    a: Value, b: Value, msg: Option<string>, baseFailure: Option<string>,
    nicediff: Differ, pformat: Value -> string, maxDiff: nat, diffOffset: nat): (r: Outcome<()>)
    ensures baseFailure.None? <==> r.Return?
    ensures r.Raise? ==> r.exc.kind == AssertionError
    ensures r.Raise? ==> r.exc == Raised(AssertionError, FailureMessage(
      Prefix(msg, baseFailure.value), nicediff(TextOf(a, pformat), TextOf(b, pformat), diffOffset), maxDiff))
  {
    match baseFailure
    case None => Return(())
    case Some(failure) =>
      var diff := nicediff(TextOf(a, pformat), TextOf(b, pformat), diffOffset);
      Raise(Raised(AssertionError, FailureMessage(Prefix(msg, failure), diff, maxDiff)))
  }

  /** On two strings the code as written and the corrected assertEqual agree. */
  lemma AgreeOnStrings(
    a: string, b: string, msg: Option<string>, baseFailure: Option<string>,
    nicediff: Differ, pformat: Value -> string, maxDiff: nat, diffOffset: nat)
    ensures AssertEqualAsWritten(Str(a), Str(b), msg, baseFailure, nicediff, maxDiff, diffOffset)
         == AssertEqual(Str(a), Str(b), msg, baseFailure, nicediff, pformat, maxDiff, diffOffset)
  {
  }

  /** assertEqual([1], [2]): the code as written raises NameError, not a diff. */
  lemma PprintNameError()
    ensures
      var a, b := Obj("[1]", true), Obj("[2]", true);
      var nicediff: Differ := (x, y, n) => ["- " + x + "\n", "+ " + y + "\n"];
      var pformat := (v: Value) => ToStr(v);
      && AssertEqualAsWritten(a, b, None, Some("[1] != [2]"), nicediff, ASSERT_MAX_DIFF, DIFF_OFFSET).exc.kind == NameError
      && AssertEqual(a, b, None, Some("[1] != [2]"), nicediff, pformat, ASSERT_MAX_DIFF, DIFF_OFFSET).exc.kind == AssertionError
  {
  }
}

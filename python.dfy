/**
  Python 2 values, exceptions and the few built-ins that the test helpers of
  lib/vsc/install/testing.py rely on: str(), truth values, str.join,
  str.endswith and decimal formatting of an int.
 */
module Python {

  datatype Option<+T> = None | Some(value: T)

  /** A Python value, seen only through what the helpers ask of it. */
  datatype Value =
    | Str(s: string)                  // a str or unicode object (basestring)
    | NoneValue                       // None
    | Obj(text: string, truthy: bool) // any other object: what str() gives and its truth value

  /** str(v) */
  function ToStr(v: Value): string
  {
    match v
    case Str(s) => s
    case NoneValue => "None"
    case Obj(t, _) => t
  }

  /** bool(v): an empty string and None are false */
  predicate Truthy(v: Value)
  {
    match v
    case Str(s) => s != ""
    case NoneValue => false
    case Obj(_, b) => b
  }

  /** Exception classes the helpers raise or catch; every other class is OtherKind. */
  datatype Kind =
    | AssertionError
    | IndexError
    | KeyError
    | NameError
    | ImportError
    | GenericException                // the plain Exception class
    | OtherKind(name: string)

  /**
    An exception instance: its class, the attributes `msg`, `message` and
    `args` when it has them, and str(err).
   */
  datatype Exc = Exc(
    kind: Kind,
    msgAttr: Option<Value>,
    messageAttr: Option<Value>,
    argsAttr: Option<seq<Value>>,
    text: string)

  /**
    `kind(message)` for a built-in exception class of Python 2: the argument
    is in `message` and in `args`, there is no `msg`, and str() gives it back.
   */
  function Raised(kind: Kind, message: string): (e: Exc)
    ensures e.kind == kind && e.text == message && e.msgAttr.None?
    ensures e.messageAttr == Some(Str(message)) && e.argsAttr == Some([Str(message)])
  {
    Exc(kind, None, Some(Str(message)), Some([Str(message)]), message)
  }

  /** KeyError(key): str() of a KeyError is the repr of its key. */
  function KeyErrorOf(key: string): (e: Exc)
    ensures e.kind == KeyError && e.messageAttr == Some(Str(key))
    ensures e.text == "'" + key + "'"
  {
    Exc(KeyError, None, Some(Str(key)), Some([Str(key)]), "'" + key + "'")
  }

  /** What a Python call does: it returns a value or raises an exception. */
  datatype Outcome<+T> = Return(value: T) | Raise(exc: Exc)

  /** sep.join(parts) */
  function Join(sep: string, parts: seq<string>): string
  {
    if |parts| == 0 then ""
    else if |parts| == 1 then parts[0]
    else parts[0] + sep + Join(sep, parts[1..])
  }

  /** Joining a concatenation joins the two halves with one more separator. */
  lemma {:induction false} JoinAppend(sep: string, a: seq<string>, b: seq<string>)
    requires a != [] && b != []
    ensures Join(sep, a + b) == Join(sep, a) + sep + Join(sep, b)
  {
    assert (a + b)[0] == a[0];
    assert (a + b)[1..] == a[1..] + b;
    if |a| > 1 {
      JoinAppend(sep, a[1..], b);
    }
  }

  /** ''.join(parts[:k]) is the beginning of ''.join(parts). */
  lemma {:induction false} ConcatPrefix(parts: seq<string>, k: nat)
    requires k <= |parts|
    ensures Join("", parts) == Join("", parts[..k]) + Join("", parts[k..])
  {
    if 0 < k < |parts| {
      assert parts == parts[..k] + parts[k..];
      JoinAppend("", parts[..k], parts[k..]);
    } else if k == 0 {
      assert parts[k..] == parts;
    } else {
      assert parts[..k] == parts;
    }
  }

  /** [str(v) for v in vs] */
  function MapToStr(vs: seq<Value>): (r: seq<string>)
    ensures |r| == |vs|
    ensures forall i :: 0 <= i < |vs| ==> r[i] == ToStr(vs[i])
  {
    if vs == [] then [] else [ToStr(vs[0])] + MapToStr(vs[1..])
  }

  /** s.startswith(start) */
  predicate StartsWith(s: string, start: string)
  {
    |start| <= |s| && s[..|start|] == start
  }

  /** s.endswith(suffix) */
  predicate EndsWith(s: string, suffix: string)
  {
    |suffix| <= |s| && s[|s| - |suffix|..] == suffix
  }

  predicate IsDigit(c: char)
  {
    '0' <= c <= '9'
  }

  function DigitChar(d: nat): (c: char)
    requires d < 10
    ensures IsDigit(c)
  {
    ('0' as int + d) as char
  }

  /** '%s' % n for a non-negative int: its decimal digits, most significant first */
  function NatToString(n: nat): (s: string)
    ensures |s| > 0
    ensures forall i :: 0 <= i < |s| ==> IsDigit(s[i])
    ensures n >= 10 ==> s[0] != '0'
  {
    if n < 10 then [DigitChar(n)] else NatToString(n / 10) + [DigitChar(n % 10)]
  }

  /** int(s) for a string of decimal digits: the partner of NatToString */
  function ParseNat(s: string): nat
    requires forall i :: 0 <= i < |s| ==> IsDigit(s[i])
  {
    if |s| == 0 then 0 else 10 * ParseNat(s[..|s| - 1]) + DigitValue(s[|s| - 1])
  }

  function DigitValue(c: char): (d: nat)
    requires IsDigit(c)
    ensures d < 10 && DigitChar(d) == c
  {
    c as int - '0' as int
  }

  /** Decimal formatting loses nothing: parsing it back gives the number. */
  lemma {:induction false} ParseNatToString(n: nat)
    ensures ParseNat(NatToString(n)) == n
  {
    var s := NatToString(n);
    if n >= 10 {
      var t := NatToString(n / 10);
      assert s[..|s| - 1] == t;
      ParseNatToString(n / 10);
    }
  }
}

/**
  The log cache of TestCase: a table from log-function name to the calls
  intercepted under that name, in order. These functions give the table's
  changes as values; class Testing.TestCase applies them to its field.
 */
module LogCache {
  import opened Python

  /** The {'args': args, 'kwargs': kwargs} dict recorded for one call; kwargs in iteration order */
  datatype Record = Record(args: seq<Value>, kwargs: seq<(string, Value)>)

  /**
    A log function as mock_logmethod sees it: its func_name attribute, the
    __name__ of its im_func attribute, and the text of dir(f).
   */
  datatype LogFunc = LogFunc(funcName: Option<string>, imFuncName: Option<string>, listing: string)

  /** TestCase.LOGCACHE */
  type Cache = map<string, seq<Record>>

  /** The name under which the wrapper records a call, or the Exception it raises first. */
  function ResolveName(f: LogFunc): (r: Outcome<string>)
    ensures f.funcName.Some? ==> r == Return(f.funcName.value)
    ensures f.funcName.None? && f.imFuncName.Some? ==> r == Return(f.imFuncName.value)
    ensures r.Raise? <==> f.funcName.None? && f.imFuncName.None?
    ensures r.Raise? ==> r.exc == Raised(GenericException, "Unknown logmethod " + f.listing)
  {
    match (f.funcName, f.imFuncName)
    case (Some(n), _) => Return(n)
    case (None, Some(n)) => Return(n)
    case (None, None) => Raise(Raised(GenericException, "Unknown logmethod " + f.listing))
  }

  /** LOGCACHE.get(name, []) */
  function Lookup(c: Cache, name: string): (l: seq<Record>)
    ensures name in c ==> l == c[name]
    ensures name !in c ==> l == []
  {
    if name in c then c[name] else []
  }

  /** LOGCACHE.setdefault(name, []).append(rec) */
  function Appended(c: Cache, name: string, rec: Record): (d: Cache)
    ensures d.Keys == c.Keys + {name}
    ensures Lookup(d, name) == Lookup(c, name) + [rec]
    ensures forall k :: k != name ==> Lookup(d, k) == Lookup(c, k)
  {
    c[name := Lookup(c, name) + [rec]]
  }

  /** reset_logcache(name): None and "" are false, and clear the whole table. */
  function Reset(c: Cache, name: Option<string>): (d: Cache)
    ensures name.None? || name.value == "" ==> d == map[]
    ensures name.Some? && name.value != "" ==>
      && d.Keys == c.Keys + {name.value}
      && d[name.value] == []
      && forall k :: k != name.value ==> Lookup(d, k) == Lookup(c, k)
  {
    match name
    case Some(n) => if n != "" then c[n := []] else map[]
    case None => map[]
  }

  /**
    One call of the wrapper returned by mock_logmethod(f): the name is
    resolved first, so an unknown log method adds nothing.
   */
  function Intercept(c: Cache, f: LogFunc, rec: Record): (r: Outcome<Cache>)
    ensures r.Raise? <==> ResolveName(f).Raise?
    ensures r.Raise? ==> r.exc == ResolveName(f).exc
    ensures r.Return? ==> r.value == Appended(c, ResolveName(f).value, rec)
  {
    match ResolveName(f)
    case Raise(e) => Raise(e)
    case Return(name) => Return(Appended(c, name, rec))
  }

  /** The table after recording `calls` (name and record) in order */
  function ReplayAll(c: Cache, calls: seq<(string, Record)>): Cache
    decreases |calls|
  {
    if calls == [] then c else ReplayAll(Appended(c, calls[0].0, calls[0].1), calls[1..])
  }

  /** The records among `calls` made under `name`, in order */
  function Under(calls: seq<(string, Record)>, name: string): seq<Record>
  {
    if calls == [] then []
    else (if calls[0].0 == name then [calls[0].1] else []) + Under(calls[1..], name)
  }

  /**
    The table keeps, under every name, exactly the records made under that
    name, in the order they were made.
   */
  lemma {:induction false} ReplayAllLookup(c: Cache, calls: seq<(string, Record)>, name: string)
    ensures Lookup(ReplayAll(c, calls), name) == Lookup(c, name) + Under(calls, name)
    decreases |calls|
  {
    if calls != [] {
      ReplayAllLookup(Appended(c, calls[0].0, calls[0].1), calls[1..], name);
    }
  }

  /** n calls through one wrapper count n under its name and nothing under any other. */
  lemma {:induction false} RepeatCount(c: Cache, name: string, recs: seq<Record>, other: string)
    requires other != name
    ensures |Lookup(ReplayAll(c, Tagged(name, recs)), name)| == |Lookup(c, name)| + |recs|
    ensures Lookup(ReplayAll(c, Tagged(name, recs)), other) == Lookup(c, other)
    decreases |recs|
  {
    if recs != [] {
      assert Tagged(name, recs)[1..] == Tagged(name, recs[1..]);
      RepeatCount(Appended(c, name, recs[0]), name, recs[1..], other);
    }
  }

  /** Every record of recs, made under name */
  function Tagged(name: string, recs: seq<Record>): (calls: seq<(string, Record)>)
    ensures |calls| == |recs|
    ensures forall i :: 0 <= i < |recs| ==> calls[i] == (name, recs[i])
  {
    if recs == [] then [] else [(name, recs[0])] + Tagged(name, recs[1..])
  }
}

/**
  class TestCase of lib/vsc/install/testing.py, the state its helpers update
  in place: where stdout and stderr point, and the log cache.
 */
module Testing {
  import opened Python
  import opened LogCache

  /** What sys.stdout (or sys.stderr) is: the original saved at setUp, or a StringIO buffer */
  datatype Stream = Original | Buffer(contents: string)

  class TestCase {
    var stdout: Stream
    var stderr: Stream
    var logcache: Cache

    /** A fresh test case after setUp: the streams in force are the saved originals. */
    constructor ()
      ensures stdout == Original && stderr == Original && logcache == map[]
    {
      stdout := Original;
      stderr := Original;
      logcache := map[];
    }

    /** mock_stdout(enable): a fresh, empty buffer, or back to the original */
    method MockStdout(enable: bool)
      modifies this
      ensures stdout == if enable then Buffer("") else Original
      ensures !enable && old(stdout) == Original ==> stdout == old(stdout)
      ensures stderr == old(stderr) && logcache == old(logcache)
    {
      stdout := if enable then Buffer("") else Original;
    }

    /** mock_stderr(enable) */
    method MockStderr(enable: bool)
      modifies this
      ensures stderr == if enable then Buffer("") else Original
      ensures !enable && old(stderr) == Original ==> stderr == old(stderr)
      ensures stdout == old(stdout) && logcache == old(logcache)
    {
      stderr := if enable then Buffer("") else Original;
    }

    /**
      Code under test writing text to sys.stdout: a buffer keeps it; text
      written to the original stream leaves this model.
     */
    method WriteStdout(text: string)
      modifies this
      ensures old(stdout).Buffer? ==> stdout == Buffer(old(stdout).contents + text)
      ensures old(stdout) == Original ==> stdout == Original
      ensures stderr == old(stderr) && logcache == old(logcache)
    {
      if stdout.Buffer? {
        stdout := Buffer(stdout.contents + text);
      }
    }

    /** get_stdout(): what the buffer holds; None when stdout is the original stream */
    function GetStdout(): (r: Option<string>)
      reads this
      ensures r.Some? <==> stdout.Buffer?
      ensures stdout.Buffer? ==> r.value == stdout.contents
    {
      if stdout.Buffer? then Some(stdout.contents) else None
    }

    /** get_stderr() */
    function GetStderr(): (r: Option<string>)
      reads this
      ensures r.Some? <==> stderr.Buffer?
      ensures stderr.Buffer? ==> r.value == stderr.contents
    {
      if stderr.Buffer? then Some(stderr.contents) else None
    }

    /**
      A call of the wrapper that mock_logmethod(f) returns. On success it
      gives back the call to forward to f unchanged; an unresolvable name
      raises before anything is recorded or forwarded.
     */
    method LogCall(f: LogFunc, rec: Record) returns (forwarded: Outcome<Record>)
      modifies this
      ensures ResolveName(f).Return? ==>
        logcache == Appended(old(logcache), ResolveName(f).value, rec) && forwarded == Return(rec)
      ensures ResolveName(f).Raise? ==>
        logcache == old(logcache) && forwarded == Raise(ResolveName(f).exc)
      ensures stdout == old(stdout) && stderr == old(stderr)
    {
      match Intercept(logcache, f, rec)
      case Raise(e) =>
        forwarded := Raise(e);
      case Return(c) =>
        logcache := c;
        forwarded := Return(rec);
    }

    /** reset_logcache(name) */
    method ResetLogcache(name: Option<string>)
      modifies this
      ensures logcache == Reset(old(logcache), name)
      ensures stdout == old(stdout) && stderr == old(stderr)
    {
      match name
      case Some(n) =>
        if n != "" {
          logcache := logcache[n := []];
        } else {
          logcache := map[];
        }
      case None =>
        logcache := map[];
    }

    /** count_logcache(name): the calls recorded under name, 0 for a name never recorded */
    function CountLogcache(name: string): (n: nat)
      reads this
      ensures name in logcache ==> n == |logcache[name]|
      ensures name !in logcache ==> n == 0
    {
      if name in logcache then |logcache[name]| else 0
    }

    /** tearDown(): both streams back to the originals and the log cache empty */
    method TearDown()
      modifies this
      ensures stdout == Original && stderr == Original && logcache == map[]
    {
      MockStdout(false);
      MockStderr(false);
      ResetLogcache(None);
    }
  }

  /**
    A test's life: capture then print, log three times through one wrapper,
    reset that name, tear down and restore once more.
   */
  method Lifecycle(error: LogFunc, info: LogFunc, rec: Record)
    requires error.funcName == Some("error") && info.funcName == Some("info")
  {
    var t := new TestCase();
    t.MockStdout(true);
    t.WriteStdout("hello");
    assert "" + "hello" == "hello";
    assert t.GetStdout() == Some("hello");
    var r := t.LogCall(error, rec);
    assert r == Return(rec);
    r := t.LogCall(info, rec);
    r := t.LogCall(error, rec);
    r := t.LogCall(error, rec);
    assert t.CountLogcache("error") == 3 && t.CountLogcache("info") == 1;
    t.ResetLogcache(Some("error"));
    assert t.CountLogcache("error") == 0 && t.CountLogcache("info") == 1;
    t.TearDown();
    assert t.CountLogcache("info") == 0 && t.GetStdout() == None;
    t.MockStdout(false);
    t.MockStderr(false);
    assert t.stdout == Original && t.stderr == Original;
  }
}

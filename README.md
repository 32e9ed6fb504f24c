# vsc-install test helpers, modelled in Dafny

A model of the test helpers in `lib/vsc/install/testing.py` of vsc-install:

- the enhanced `TestCase`: the failure message of `assertEqual`;
- `convert_exception_to_str` and `assertErrorRegex`;
- the stdout/stderr mocking and the log-call cache that the test case updates in place;
- the import smoke test `VSCImportTest`: `_import`, the three `test_import_*` loops, and script-to-module name derivation.

The code is Python 2, and the model follows Python 2 semantics.
`assertTrue(False, msg)` raises `AssertionError(msg)`, because `longMessage` is off by default.
Built-in exceptions carry their argument in `message` and `args`.

Files, one module each:

- `python.dfy` (`Python`): the Python values, exceptions and built-ins the helpers use. These are `str()`, truth values, `str.join`, `str.startswith`, `str.endswith` and `'%s' % n`.
- `exception_text.dfy` (`ExceptionText`): `convert_exception_to_str`.
- `diff_assertion.dfy` (`DiffAssertion`): `assertEqual` and its truncated diff message.
- `error_regex.dfy` (`ErrorRegex`): `assertErrorRegex`.
- `log_cache.dfy` (`LogCache`): the log cache as a `map<string, seq<Record>>`, and its changes as functions.
- `testing.dfy` (`Testing`): `class TestCase`. It holds where stdout and stderr point (`Original | Buffer(contents)`) and the log cache. Its methods change these fields in place.
- `import_test.dfy` (`ImportTest`): `VSCImportTest`. The three test loops are methods with `while` loops. Each is proved equal to a recursive specification function.

`Testing.Lifecycle` is a worked example of one test's life. It mocks stdout and prints to it, logs three times through one wrapper and once through another, resets one name, and tears down; the counts and the buffer read back are asserted at each step.

Collaborators the code calls but does not define are parameters:

- `nicediff` is a `Differ`;
- the compiled regex is its pattern plus a `search` predicate;
- `__import__` is an `Importer`, which returns the outcome and the new `sys.modules` set;
- `check_header` is a `HeaderCheck`;
- the base framework's `assertEqual` result is `baseFailure`, which is `None` when the values are equal and otherwise `str(e)`;
- what the callable of `assertErrorRegex` did is an `Outcome`.

Behaviour of the code that is easy to miss:

- `assertErrorRegex` raises its "call should occur" `AssertionError` inside the `try`. When the expected kind covers `AssertionError`, that failure is caught, and the regex is checked against its own message. `ErrorRegex.AssertErrorRegex` states this case.
- `_import` swallows `ImportError` and then asserts that the name is in `sys.modules`. An import that fails with `ImportError` but leaves the name loaded therefore passes.
- `convert_exception_to_str` tries `msg`, then `message` (an empty one falls back to the error itself), then `args[0]`, then the error. An empty `args` tuple makes `args[0]` raise `IndexError`.

## Model

| member | source | states |
|---|---|---|
| `Python.Raised` | lib/vsc/install/testing.py:124 | an exception raised as `Kind(message)` has no `msg`, has the message in `message` and `args`, and gives it back through str() |
| `Python.KeyErrorOf` | lib/vsc/install/testing.py:227 | the KeyError of a missing package has the key as its message, and str() gives the quoted key |
| `Python.MapToStr` | lib/vsc/install/testing.py:123 | `map(str, args)`: same length, the i-th element is str of the i-th argument |
| `Python.JoinAppend` | lib/vsc/install/testing.py:123 | joining a concatenation joins the two non-empty halves with one more separator |
| `Python.ConcatPrefix` | lib/vsc/install/testing.py:86 | `''.join(diff[:k])` followed by `''.join(diff[k:])` is `''.join(diff)` |
| `Python.NatToString` | lib/vsc/install/testing.py:82 | `'%s' % n` is a non-empty string of decimal digits with no leading zero |
| `Python.ParseNatToString` | lib/vsc/install/testing.py:82 | reading the decimal text back gives the number |
| `ExceptionText.ConvertExceptionToStr` | lib/vsc/install/testing.py:94-113 | a present `msg` wins; else a truthy `message`, or the error itself when `message` is empty; else `args[0]`; else the error itself; it raises IndexError exactly when `args` is reached and is empty |
| `ExceptionText.MsgDecides` | lib/vsc/install/testing.py:97-98 | two exceptions with the same present `msg` give the same text, whatever their other attributes |
| `ExceptionText.RaisedRoundTrip` | lib/vsc/install/testing.py:99-103 | a built-in exception raised with a message is converted back to exactly that message, even an empty one |
| `DiffAssertion.Prefix` | lib/vsc/install/testing.py:66-69 | the message starts as `str(e)` when `msg` is None, else as "msg: e", even for an empty msg; either way it ends with `str(e)` |
| `DiffAssertion.TextOf` | lib/vsc/install/testing.py:71-78 | a string is diffed as itself, any other value as its `pformat` text |
| `DiffAssertion.LimitNote` | lib/vsc/install/testing.py:81-84 | the note is non-empty exactly when the diff has more lines than the limit, and then reads " (first N lines)" |
| `DiffAssertion.Shown` | lib/vsc/install/testing.py:86 | the kept lines are the first min(len(diff), limit) lines of the diff |
| `DiffAssertion.FailureMessage` | lib/vsc/install/testing.py:86 | the message starts with the prefix and ":\nDIFF", and its length is the prefix, the note, the two fixed separators and the shown diff text |
| `DiffAssertion.FailureMessageParts` | lib/vsc/install/testing.py:81-86 | the message is the prefix, ":\nDIFF", the note only for a long diff, ":\n", then the whole diff when it fits and otherwise its first limit lines; the shown text always begins the full diff text |
| `DiffAssertion.DefaultLimitNote` | lib/vsc/install/testing.py:58 | with `ASSERT_MAX_DIFF` = 100 the note is " (first 100 lines)" |
| `DiffAssertion.AssertEqualAsWritten` | lib/vsc/install/testing.py:61-86 | equal values raise nothing; a mismatch with a value that is not a string raises NameError (pprint is not imported) |
| `DiffAssertion.AssertEqual` | lib/vsc/install/testing.py:61-86 | equal values raise nothing; a mismatch always raises AssertionError whose message is built from `str(e)` or "msg: e" and the truncated diff of the two texts |
| `DiffAssertion.AgreeOnStrings` | lib/vsc/install/testing.py:71-78 | on two strings, the code as written and the corrected assertEqual give the same outcome |
| `DiffAssertion.PprintNameError` | lib/vsc/install/testing.py:74 | `assertEqual([1], [2])` raises NameError as written, and AssertionError once pformat is available |
| `ErrorRegex.KeywordStrings` | lib/vsc/install/testing.py:122 | one "k=str(v)" string per keyword argument, in order |
| `ErrorRegex.FormatArgs` | lib/vsc/install/testing.py:122-123 | no arguments give "", a single positional argument gives its str(), a single keyword argument gives "k=str(v)" |
| `ErrorRegex.FormatArgsOrder` | lib/vsc/install/testing.py:122-123 | the argument text lists the positional arguments first, then the keyword ones, with ", " between the two groups |
| `ErrorRegex.NoErrorMessage` | lib/vsc/install/testing.py:124 | the failure starts with "Expected errors with NAME(" and ends with the argument text and ") call should occur" |
| `ErrorRegex.NoMatchMessage` | lib/vsc/install/testing.py:129 | the failure starts with "Pattern 'PATTERN'" and ends with "' is found in 'TEXT'" |
| `ErrorRegex.CheckCaught` | lib/vsc/install/testing.py:125-129 | a caught exception passes exactly when its text is extracted and the regex finds it; otherwise the failure quotes the pattern and the text, or the extraction's IndexError propagates |
| `ErrorRegex.AssertErrorRegex` | lib/vsc/install/testing.py:115-129 | a call that returns fails with "Expected errors with NAME(ARGS) call should occur", unless AssertionError is expected, when the regex decides on that message; an expected kind passes exactly when its text matches; any other kind propagates unchanged |
| `ErrorRegex.ValueErrorExample` | lib/vsc/install/testing.py:115-129 | a ValueError("bad value: 3") passes, a TypeError propagates, and a call that returns fails naming f(1, 2) |
| `ErrorRegex.FormatOneTwo` | lib/vsc/install/testing.py:122-123 | the positional arguments 1 and 2 are shown as "1, 2" |
| `LogCache.ResolveName` | lib/vsc/install/testing.py:162-167 | the name is `func_name` if present, else `im_func.__name__`; with neither, it raises Exception("Unknown logmethod ...") |
| `LogCache.Lookup` | lib/vsc/install/testing.py:189 | `LOGCACHE.get(name, [])`: the recorded list of a known name, the empty list for any other |
| `LogCache.Appended` | lib/vsc/install/testing.py:168-169 | the record goes at the end of the name's list, which is created if absent; every other name's list is unchanged |
| `LogCache.Reset` | lib/vsc/install/testing.py:180-183 | a non-empty name gets an empty list, added if absent, and nothing else changes; None or "" empties the whole cache |
| `LogCache.Intercept` | lib/vsc/install/testing.py:161-170 | one wrapper call raises, with the cache untouched, exactly when the name cannot be resolved; otherwise it appends the record under the resolved name |
| `LogCache.ReplayAllLookup` | lib/vsc/install/testing.py:168-169 | after any sequence of calls, each name's list is its old list followed by exactly the records made under that name, in order |
| `LogCache.RepeatCount` | lib/vsc/install/testing.py:185-189 | n calls through one wrapper raise its count by n and leave every other name's records unchanged |
| `Testing.TestCase.constructor` | lib/vsc/install/testing.py:88-92 | after setUp both streams are the saved originals and the cache is empty |
| `Testing.TestCase.MockStdout` | lib/vsc/install/testing.py:131-137 | enabling installs a fresh empty buffer; disabling always restores the original (a no-op when already restored); nothing else changes |
| `Testing.TestCase.MockStderr` | lib/vsc/install/testing.py:139-145 | the same for stderr |
| `Testing.TestCase.WriteStdout` | lib/vsc/install/testing.py:135 | text written while mocked is appended to the buffer; text written to the original leaves the model |
| `Testing.TestCase.GetStdout` | lib/vsc/install/testing.py:147-149 | returns the buffer's contents exactly when stdout is mocked |
| `Testing.TestCase.GetStderr` | lib/vsc/install/testing.py:151-153 | returns the buffer's contents exactly when stderr is mocked |
| `Testing.TestCase.LogCall` | lib/vsc/install/testing.py:155-172 | a resolvable call appends one record and forwards the call unchanged; an unresolvable one raises before recording or forwarding; streams unchanged |
| `Testing.TestCase.ResetLogcache` | lib/vsc/install/testing.py:174-183 | the cache becomes `Reset` of the old cache; streams unchanged |
| `Testing.TestCase.CountLogcache` | lib/vsc/install/testing.py:185-189 | the number of records under the name, 0 for a name never recorded |
| `Testing.TestCase.TearDown` | lib/vsc/install/testing.py:191-196 | afterwards both streams are the originals and the cache is empty |
| `ImportTest.Swallowed` | lib/vsc/install/testing.py:214-217 | a successful import and an ImportError go on to the membership test; any other error does not |
| `ImportTest.ImportMessage` | lib/vsc/install/testing.py:219 | the failure message starts with "import NAME" and ends with " was success" |
| `ImportTest.ImportOne` | lib/vsc/install/testing.py:213-219 | an error other than ImportError propagates; otherwise the step passes exactly when the name is in sys.modules, and fails with "import NAME was success" |
| `ImportTest.HeadersSpec` | lib/vsc/install/testing.py:226-229 | no files pass; a failing header check is always an AssertionError |
| `ImportTest.HeadersFirstBad` | lib/vsc/install/testing.py:226-229 | the header checks pass exactly when every file is compliant; otherwise the failure names the first file that is not |
| `ImportTest.CheckHeaders` | lib/vsc/install/testing.py:226-229 | the loop over a package's files gives the outcome of the header checks in order |
| `ImportTest.ModulesSpec` | lib/vsc/install/testing.py:231-234 | no modules pass with sys.modules unchanged; an ImportError never escapes the test, it becomes the assertion failure of `_import` |
| `ImportTest.TestImportModules` | lib/vsc/install/testing.py:231-234 | the loop imports the modules in turn, stops at the first failure, and threads sys.modules through |
| `ImportTest.PackagesSpec` | lib/vsc/install/testing.py:221-229 | no packages pass with sys.modules unchanged; an ImportError never escapes the test |
| `ImportTest.TestImportPackages` | lib/vsc/install/testing.py:221-229 | the loop imports each package and, when CHECK_HEADER is set, checks its files; a package missing from the file table raises KeyError |
| `ImportTest.Basename` | lib/vsc/install/testing.py:242 | `os.path.basename`: the longest suffix without '/', preceded by '/' when shorter than the path |
| `ImportTest.BasenameKeepsPy` | lib/vsc/install/testing.py:240-242 | the basename of a path ending in ".py" still ends in ".py" |
| `ImportTest.ModuleNameOf` | lib/vsc/install/testing.py:242 | the module name with ".py" appended is the script's basename, and it contains no '/' |
| `ImportTest.ScriptsSpec` | lib/vsc/install/testing.py:236-246 | scripts none of which end in ".py" are neither imported nor checked, so the test passes with sys.modules unchanged; an ImportError never escapes the test |
| `ImportTest.TestImportScripts` | lib/vsc/install/testing.py:236-246 | the loop skips names not ending in ".py", imports the rest under their stripped basenames, and checks `scr` itself only when CHECK_HEADER is set |
| `ImportTest.PackagesWithoutHeaders` | lib/vsc/install/testing.py:221-234 | with CHECK_HEADER off, testing packages is testing them as modules |
| `ImportTest.ScriptsAsModules` | lib/vsc/install/testing.py:231-246 | with CHECK_HEADER off, testing scripts is testing the modules named by the ".py" scripts |
| `ImportTest.PackagesPassedHeadersClean` | lib/vsc/install/testing.py:221-229 | a package test that passes with CHECK_HEADER on has every package in the file table and every one of its files compliant |

## Left out

- Real stream I/O is not modelled: `StringIO`, `flush()`, and the rebinding of the process-global `sys.stdout`/`sys.stderr`. Only the `Original | Buffer` selector is kept.
- `Testing.TestCase.GetStdout`: returns `None` when stdout is the original stream. What `getvalue()` does on that stream depends on the environment, so the model does not say.
- `Testing.TestCase.GetStderr`: returns `None` when stderr is the original stream, for the same reason as `GetStdout`.
- `Python.KeyErrorOf`: str() of a KeyError is repr(key). The model quotes the key as `'key'`, which is exact only for keys without quotes, backslashes or non-printable characters. Dotted package names meet this.
- The regex engine and `re.compile`, including the `re.error` a bad pattern raises: a regex is its pattern plus an opaque `search`.
- `nicediff` and `pprint.pformat`: both are parameters. `headers.py` is not part of this model.
- The UTF-8 fallback of `convert_exception_to_str` for `UnicodeEncodeError` (lines 110-111). This is a string-encoding detail.
- The base framework's equality test and its `str(e)`: both are the `baseFailure` parameter.
- The enumerators `generate_packages`, `generate_modules` and `generate_scripts`, with their EXTRA_*/EXCLUDE_* knobs, come in as input sequences. `FILES_IN_PACKAGES['packages']` is an input map. `shared_setup.py` is not part of this model.
- `check_header` and the `os.path.join(REPO_BASE_DIR, ...)` of its path: together they form the opaque `HeaderCheck`, applied to the relative name.
- `__import__` and the real contents of `sys.modules`: an `Importer` gives the outcome and the next set.
- `ImportTest.ImportOne`: `except ImportError` also catches subclasses of ImportError. The model treats only the kind `ImportError` as swallowed.
- `ErrorRegex.AssertErrorRegex`: `str(v)` of an argument and `call.__name__` are taken to succeed. An AttributeError from a callable without `__name__` is not modelled.
- The keyword arguments' order is the dict's iteration order, given as a sequence.
- `mock_logmethod` itself only builds the wrapper closure. `Testing.TestCase.LogCall` models each call of that wrapper. The effects and errors of the forwarded call are outside the model, and so is the wrapper's `None` return value.
- Sharing of `LOGCACHE` between instances is not modelled: the class attribute versus instance attribute after a whole reset, and cross-instance or concurrent tests. Each test case has one cache field.
- The `super().setUp()` and `super().tearDown()` calls of the base framework.

## Findings

| source | as written | input that shows it | evidently intended | confidence | as-written member | corrected member |
|---|---|---|---|---|---|---|
| lib/vsc/install/testing.py:74 | a value that is not a string is passed to `pprint.pformat`, but `pprint` is never imported (lines 42-50), so this raises NameError | `assertEqual([1], [2])` | a mismatch of non-string values raises AssertionError with the diff of their pretty-printed forms | high; not executed | `DiffAssertion.AssertEqualAsWritten` (counterexample `DiffAssertion.PprintNameError`) | `DiffAssertion.AssertEqual` |

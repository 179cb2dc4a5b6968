# flask-unittest live suite, modelled in Dafny

This project models the bookkeeping of `flask_unittest`'s live-server harness:

- `LiveTestSuite` (`flask_unittest/suite.py`) is a `unittest` suite built around a Flask application. On construction it resolves:
  - its readiness timeout;
  - the `HOST` and `PORT` configuration keys, with their defaults.
- When run, the suite does three things in order:
  - it starts the application's server on a daemon thread and probes the port on `127.0.0.1`;
  - it writes `server_url` and `app` into the tests it holds;
  - it hands over to the ordinary suite run, which releases each slot (sets it to `None`) once its test has run.
- Injection descends one level only. Each direct child that is a test case is written. Each direct child that is a suite has its members written as they are, whether they are test cases or suites. Nothing below that is touched.
- The live test case (`flask_unittest/case.py`) guards `server_url`:
  - the backing field `_server_url` starts unset;
  - the setter stores a string;
  - the getter returns the stored value only when it is truthy and raises `AttributeError` otherwise.

Files:

- `wrappers.dfy`: `Option` and `Result`.
- `decimal.dfy`: Python's `str()` for integers, with a parser and the round trip. It gives the text of the port inside the URL.
- `flask.dfy`: configuration values, `dict.get` on the configuration, and the application object.
- `case.dfy`: the `TestCase` class with its guarded `server_url` property.
- `suite.dfy`: the `LiveSuite` class and the `Node` datatype for a suite's members. A member is `Leaf(test case)`, `Group(suite object, members)` or `Released` (a slot the ordinary run has set to `None`). It also holds injection, the server step and `run`.

Modelling choices:

- Test cases and nested suite objects are classes. Their `server_url` and `app` fields are updated in place, so every injection method states its effect with `modifies` and says which objects end up holding which values.
- `Visits` lists every node `_setup_testcases` would visit, in order, if nothing raised. `VisitsExactlyOneLevel` says which nodes are in that list. `VisitsStep` and `VisitsAppend` say in what order they come. The methods are proved against it.
- The body of the outer `for test in self` loop is the method `InjectChild`, and the inner `for inner_test in test` loop is the method `InjectMembers`, whose body is `InjectMember`; the outer loop itself is in `SetupTestcases`.
- Writing an attribute on a released slot raises `AttributeError`, which ends both loops. `UpToRelease` is the part of the visiting order reached before that happens.
- The network is a parameter. `listening` says whether the readiness probe connected in time.
- A ghost `trace` records the order of the steps of `run`: server started, port probed, properties injected, base run called.

Three details of the source that the model keeps:

- The injected URL always uses the literal `127.0.0.1`. It never uses the configured host, although the host is passed to the server thread.
- A failed probe surfaces whatever `socket.create_connection` raises; there is no dedicated readiness error. Here that is `ConnectionFailed`.
- The probe timeout is `timeout or None`, so an explicit `0.0` means "no timeout".

## Model

| member | source | states |
|---|---|---|
| `Suite.ResolveTimeout` | flask_unittest/suite.py:27 | the default placeholder resolves to no timeout (`None`); any explicit argument, `None` included, is stored unchanged |
| `Flask.ConfigGet` | flask_unittest/suite.py:28-29 | a configuration lookup returns the stored value when the key is present and the supplied default otherwise |
| `Suite.LiveSuite.constructor` | flask_unittest/suite.py:23-30 | given direct tests with no `None` among them, the suite keeps the application and the given tests in order; its timeout is the resolved one; host is `HOST` or `'127.0.0.1'`; port is `PORT` or `5000`; no server thread exists yet |
| `Suite.LiveSuite.Run` | flask_unittest/suite.py:32-35 | the server thread is started first. If the probe fails, the run stops with `ConnectionFailed`, no test object or slot is changed and nothing is injected or delegated. Otherwise every node reached before a released slot holds the URL and the app. If a released slot is visited, the run stops with `AttributeError` before delegating, the slots are kept, and every object not reached before that slot keeps its attributes. If not, the trace shows start, probe, injection and delegation with the same result and `debug` flag in that order, the caller's result object is returned, and the ordinary run leaves every slot released, the number of slots unchanged |
| `Suite.LiveSuite.SetupServer` | flask_unittest/suite.py:54-61 | records a daemon server thread for the app on the configured host and port with the reloader off, then a probe of `127.0.0.1` on that port with timeout `timeout or None`; reports whether the probe connected |
| `Suite.ProbeTimeout` | flask_unittest/suite.py:60 | `timeout or None`: the probe has no timeout exactly when the stored one is `None` or zero, and otherwise uses the stored one |
| `Suite.LiveSuite.InjectProperties` | flask_unittest/suite.py:41-44 | fails with `AttributeError` exactly on a released slot. Otherwise the one object written for the node (a test case through its setter, a suite object directly) holds the URL for the suite's port and the suite's app. Nothing else is modified |
| `Suite.LiveSuite.InjectMembers` | flask_unittest/suite.py:51-52 | succeeds exactly when the child suite has no released member, else fails with `AttributeError`. Every member before the first released one holds the URL and the app; objects injected earlier keep their values; only the members' objects are modified, and on failure every member object not reached before the released one is left unchanged |
| `Suite.LiveSuite.InjectMember` | flask_unittest/suite.py:51-52 | one pass of the inner loop: it fails with `AttributeError` exactly on a released member, and then the reached part of the child suite is the members before it. Otherwise the member's object joins the written ones, which all hold the URL and the app. Every member object not yet written is left unchanged |
| `Suite.LiveSuite.InjectChild` | flask_unittest/suite.py:46-52 | one pass of the outer loop: a test case is injected directly, a child suite member by member. It succeeds exactly when no released slot is met, everything reached before one holds the URL and the app, and the objects of the child's nodes not reached are left unchanged |
| `Suite.LiveSuite.SetupTestcases` | flask_unittest/suite.py:39-52 | succeeds exactly when no released slot is visited, else fails with `AttributeError`. Every node in `Visits(tests)` up to the first released slot holds the URL and the app. Only the objects of visited nodes are modified, those of nodes not reached before a released slot keep their attributes, and the suite's slots are unchanged |
| `Suite.UpToRelease` | flask_unittest/suite.py:41-52 | the nodes reached before an attribute write on a released slot raises: the longest prefix of the visiting order with no released slot. It is the whole order when there is none |
| `Suite.VisitsStep` | flask_unittest/suite.py:46-52 | the definition of `Visits`, unfolded one child at a time: the visiting order of the first `i + 1` children is that of the first `i`, followed by the `i`-th child itself if it is not a suite, otherwise by its members in order |
| `Suite.VisitsAppend` | flask_unittest/suite.py:46-52 | the visiting order follows the order of the suite's members: visiting two lists of members one after the other gives the visits of the first, then those of the second |
| `Suite.VisitsExactlyOneLevel` | flask_unittest/suite.py:46-52 | a node is visited if and only if it is a direct non-suite member (test case or released slot) or a member of a direct child suite. Deeper nodes, and direct child suites themselves, are not visited |
| `Suite.IsNotSuite` | flask_unittest/suite.py:63-73 | a member is classed as not a suite exactly when iterating it fails, as it does for a test case and for `None`; for a suite, iterating yields its members |
| `Suite.ServerUrlFor` | flask_unittest/suite.py:43 | the injected URL always begins with `http://127.0.0.1:`, whatever host is configured |
| `Suite.ServerUrlRecoversPort` | flask_unittest/suite.py:43 | the integer port can be read back from the URL built for it, so different ports give different URLs |
| `Flask.Format` | flask_unittest/suite.py:43 | the f-string text of a configuration value; for an integer port it is non-empty |
| `Decimal.FromNat` | flask_unittest/suite.py:43 | `str()` of a non-negative integer is a non-empty run of decimal digits without a leading zero |
| `Decimal.FromInt` | flask_unittest/suite.py:43 | `str()` of an integer starts with `-` exactly when it is negative, and is all digits otherwise |
| `Decimal.ParseInt` | flask_unittest/suite.py:43 | inverse of the `str()` at line 43, with no counterpart in the source: reading decimal text back accepts only an optional minus sign followed by digits |
| `Decimal.ParseFromNat` | flask_unittest/suite.py:43 | inverse of the `str()` at line 43, with no counterpart in the source: reading the digits of a natural number gives that number back |
| `Decimal.FromIntRoundTrip` | flask_unittest/suite.py:43 | the `str()` at line 43 loses nothing: reading `str(i)` back (a reader with no counterpart in the source) gives `i` for every integer |
| `Decimal.FromIntInjective` | flask_unittest/suite.py:43 | distinct integers have distinct decimal text, proved through the inverse reader |
| `Suite.NestedInjection` | flask_unittest/suite.py:46-52 | in a suite holding a test case and a child suite, where the child suite holds a test case and another suite, the direct test case and both members of the child suite receive the URL for the configured port. Reading `server_url` on the two test cases returns it |
| `Suite.InjectionStopsOneLevelDown` | flask_unittest/suite.py:49-52 | in that same suite, the child suite object and the test case two levels down are left alone. Reading that test case's `server_url` still fails |
| `Suite.SecondRunFails` | flask_unittest/suite.py:32-48 | running a suite of one test case twice: the first run succeeds; the ordinary run then releases the slot, so the second run's injection writes to `None` and fails with `AttributeError` |
| `Case.TestCase.constructor` | flask_unittest/case.py:5 | a fresh case has `_server_url` unset (and no `app`) |
| `Case.TestCase.ServerUrl` | flask_unittest/case.py:7-12 | the getter succeeds if and only if the stored value is set and non-empty. On success it returns exactly the stored string; otherwise it fails with `AttributeError`. It modifies nothing |
| `Case.TestCase.SetServerUrl` | flask_unittest/case.py:14-16 | the setter stores the given string and changes no other field |
| `Case.ServerUrlLifecycle` | flask_unittest/case.py:5-16 | reading a fresh case fails. After a non-empty write the read returns that string; after an empty write it still fails. A second write replaces the first |

## Left out

- `addTest`, `addTests` and `__iter__` (flask_unittest/suite.py:77-84) only restate type hints over `unittest.TestSuite`. The suite's members are passed to the constructor instead.
- `unittest.TestSuite.run` and `unittest.TestSuite.__init__` are not part of this model. Delegation is recorded as a trace event, the result object is returned unchanged, and the only effect kept is that every slot of the suite is released.
- `Suite.LiveSuite.Run`: a base run stopped early (`result.shouldStop`) releases only the slots it ran; the model releases every slot. The release of a child suite's own members inside its run, and the count of removed tests the base suite keeps, are not modelled.
- `Suite.LiveSuite.Run`: assumes that no test and no fixture raises out of the ordinary run. With `debug=True`, a failing test's exception leaves `run`: no result is returned, and the slots after it are not released. A direct test case whose class or module fixture failed keeps its slot. The model returns the result and releases every slot in both cases.
- `Suite.LiveSuite.constructor`: `unittest.TestSuite.__init__` rejects a `None` among the direct tests with `TypeError`, because `None` is not callable. The model requires that there is none instead of modelling that error. A `Released` member inside a child suite remains allowed.
- `Suite.LiveSuite.SetupTestcases`: the promise that objects of nodes not reached before a released slot keep their attributes is stated only for objects allocated before the call. Every node of a suite is.
- The server thread and the readiness probe (threads, sockets, floating-point timeouts) are recorded as values in the trace, not executed. Whether the probe connects is the `listening` input, and the model does not distinguish the exceptions `socket.create_connection` can raise. The thread is never stopped, as in the source.
- Configuration values are strings or integers only. Other Python values in `HOST` or `PORT`, and their `str()` text, are not modelled.
- A nested suite object is modelled only by the two attributes injection writes on it.
- A leaf is always a live `TestCase`. A plain `unittest.TestCase` leaf would just gain two ordinary attributes and is not modelled separately.
- Reading `app` before injection (a plain `AttributeError` in Python) has no getter here; the field is `None` until injected.
- `Suite.LiveSuite.Run`: the promises that a failed probe leaves every test object unchanged, and that a released slot leaves the objects not reached before it unchanged, are stated only for objects allocated before the call. Every node of a suite is.
- flask_unittest/loader.py, flask_unittest/main.py and flask_unittest/utils.py are not part of this model. They pass a resolved timeout (`None` for their own default) to `LiveTestSuite` through `unittest.TestLoader`, `unittest.TestProgram` and `functools.partialmethod`.
- The per-test resource-injecting case classes (application, client, application and client) are not part of this model.
- The example Flask applications, the Selenium and database tests, and the packaging script are usage examples, not part of this model.

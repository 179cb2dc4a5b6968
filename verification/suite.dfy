/**
 * `LiveTestSuite`: a test suite that, when run, starts the application's
 * server, waits until it accepts a connection, writes `server_url` and `app`
 * into the tests it holds (its direct children and, for a child that is
 * itself a suite, that child's members, one level deep only) and then runs
 * as an ordinary suite.
 */
module Suite {
  import opened Wrappers
  import opened Flask
  import opened Case
  import Decimal

  /** The loopback address the readiness probe and the injected URL use. */
  const Localhost: string := "127.0.0.1"
  const DefaultPort: int := 5000
  const UrlPrefix: string := "http://127.0.0.1:"

  /** The constructor's `timeout` argument: the default placeholder, or an explicit value (possibly `None`). */
  datatype TimeoutArg = DefaultTimeout | Timeout(seconds: Option<real>)

  /** The stored timeout: the placeholder becomes `None`, anything else is kept. */
  function ResolveTimeout(arg: TimeoutArg): (t: Option<real>)
    ensures arg.DefaultTimeout? ==> t == None
    ensures arg.Timeout? ==> t == arg.seconds
  {
    match arg
    case DefaultTimeout => None
    case Timeout(seconds) => seconds
  }

  /** `timeout or None`: a zero timeout is falsy and turns into "no timeout". */
  function ProbeTimeout(t: Option<real>): (p: Option<real>)
    ensures p == None <==> (t == None || t == Some(0.0))
    ensures p.Some? ==> p == t
  {
    if t.Some? && t.value != 0.0 then t else None
  }

  /** The URL every test receives: always the loopback address, never the configured host. */
  function ServerUrlFor(port: ConfigValue): (url: string)
    ensures |url| >= |UrlPrefix| && url[..|UrlPrefix|] == UrlPrefix
  {
    UrlPrefix + Format(port)
  }

  /** Reads the port back out of a URL of the shape `ServerUrlFor` produces. */
  function PortOf(url: string): (port: Option<int>) {
    if |url| >= |UrlPrefix| && url[..|UrlPrefix|] == UrlPrefix
    then Decimal.ParseInt(url[|UrlPrefix|..])
    else None
  }

  /** An integer port is recovered from the URL built for it, so distinct ports give distinct URLs. */
  lemma ServerUrlRecoversPort(port: int)
    ensures PortOf(ServerUrlFor(Int(port))) == Some(port)
  {
    var url := ServerUrlFor(Int(port));
    assert url[|UrlPrefix|..] == Decimal.FromInt(port);
    Decimal.FromIntRoundTrip(port);
  }

  /** The attributes of a suite object that sits inside a child suite. */
  class SuiteObject {
    var serverUrl: Option<string>
    var app: Option<App>

    constructor ()
      ensures serverUrl == None && app == None
    {
      serverUrl := None;
      app := None;
    }
  }

  /**
   * A member of a suite: a single test case, a suite with members of its own,
   * or a slot the ordinary suite run has released (set to `None`) after
   * running the test that was there.
   */
  datatype Node = Leaf(test: TestCase) | Group(suite: SuiteObject, members: seq<Node>) | Released

  datatype IterError = TypeError

  /** `iter(test)`: a suite yields its members; a test case and `None` are not iterable. */
  function Iter(n: Node): (r: Result<seq<Node>, IterError>) {
    match n
    case Group(_, members) => Ok(members)
    case _ => Err(TypeError)
  }

  /** `_isnotsuite`: a member counts as a test case exactly when iterating it fails. */
  function IsNotSuite(n: Node): (r: bool)
    ensures r <==> !n.Group?
    ensures !r ==> Iter(n) == Ok(n.members)
  {
    Iter(n).Err?
  }

  /** What `_inject_properties` is applied to for one direct child. */
  function Expand(n: Node): (ns: seq<Node>) {
    if IsNotSuite(n) then [n] else Iter(n).value
  }

  /** Every node `_setup_testcases` would visit, in visiting order, if nothing raised. */
  function Visits(tests: seq<Node>): (vs: seq<Node>) {
    if tests == [] then [] else Visits(tests[..|tests| - 1]) + Expand(tests[|tests| - 1])
  }

  /**
   * Injection reaches exactly the direct test cases (and released slots) and
   * the members of the direct child suites; nothing deeper is visited.
   */
  lemma {:induction false} VisitsExactlyOneLevel(tests: seq<Node>, x: Node)
    ensures x in Visits(tests) <==>
            (x in tests && !x.Group?) || (exists g :: g in tests && g.Group? && x in g.members)
    decreases |tests|
  {
    if tests != [] {
      var init := tests[..|tests| - 1];
      var last := tests[|tests| - 1];
      assert tests == init + [last];
      VisitsExactlyOneLevel(init, x);
      if exists g :: g in tests && g.Group? && x in g.members {
        var g :| g in tests && g.Group? && x in g.members;
        if g != last {
          assert g in init;
        }
      }
    }
  }

  /** The definition of `Visits`, unfolded one child at a time: a prefix grows by the expansion of the next child. */
  lemma VisitsStep(tests: seq<Node>, i: nat)
    requires i < |tests|
    ensures Visits(tests[..i + 1]) == Visits(tests[..i]) + Expand(tests[i])
  {
    assert tests[..i + 1][..i] == tests[..i];
  }

  /** Visiting two lists of members one after the other visits their concatenation. */
  lemma {:induction false} VisitsAppend(a: seq<Node>, b: seq<Node>)
    ensures Visits(a + b) == Visits(a) + Visits(b)
    decreases |b|
  {
    if b == [] {
      assert a + b == a;
    } else {
      var init, last := b[..|b| - 1], b[|b| - 1];
      var ab := a + b;
      assert ab[..|ab| - 1] == a + init;
      assert ab[|ab| - 1] == last;
      calc {
        Visits(ab);
        Visits(a + init) + Expand(last);
        { VisitsAppend(a, init); }
        Visits(a) + Visits(init) + Expand(last);
        { assert Visits(a) + Visits(init) + Expand(last) == Visits(a) + (Visits(init) + Expand(last)); }
        Visits(a) + (Visits(init) + Expand(last));
      }
    }
  }

  /**
   * The nodes injection reaches before it meets a released slot: the longest
   * prefix of `vs` without `Released`. Writing to `None` raises
   * `AttributeError`, which ends both loops of `_setup_testcases`.
   */
  function UpToRelease(vs: seq<Node>): (p: seq<Node>)
    ensures p <= vs && Released !in p
    ensures Released in vs ==> |p| < |vs| && vs[|p|] == Released
    ensures Released !in vs ==> p == vs
  {
    if vs == [] then []
    else if vs[0] == Released then []
    else [vs[0]] + UpToRelease(vs[1..])
  }

  /** The reached prefix of a concatenation whose first part has no released slot runs on into the second part. */
  lemma {:induction false} UpToReleaseAppend(a: seq<Node>, b: seq<Node>)
    requires Released !in a
    ensures UpToRelease(a + b) == a + UpToRelease(b)
    decreases |a|
  {
    if a == [] {
      assert a + b == b;
    } else {
      var rest := a[1..];
      assert Released !in rest by {
        assert forall x :: x in rest ==> x in a;
      }
      assert (a + b)[0] == a[0];
      assert (a + b)[1..] == rest + b;
      calc {
        UpToRelease(a + b);
        [a[0]] + UpToRelease(rest + b);
        { UpToReleaseAppend(rest, b); }
        [a[0]] + (rest + UpToRelease(b));
        { assert [a[0]] + (rest + UpToRelease(b)) == [a[0]] + rest + UpToRelease(b); }
        [a[0]] + rest + UpToRelease(b);
        { assert a == [a[0]] + rest; }
        a + UpToRelease(b);
      }
    }
  }

  /** The reached prefix of a concatenation whose first part has a released slot stops inside the first part. */
  lemma {:induction false} UpToReleaseCut(a: seq<Node>, b: seq<Node>)
    requires Released in a
    ensures UpToRelease(a + b) == UpToRelease(a)
    decreases |a|
  {
    assert (a + b)[0] == a[0];
    if a[0] != Released {
      assert (a + b)[1..] == a[1..] + b;
      UpToReleaseCut(a[1..], b);
    }
  }

  /** The first released slot, at index `j`, cuts the reached prefix there. */
  lemma UpToReleaseAt(vs: seq<Node>, j: nat)
    requires j < |vs| && vs[j] == Released && Released !in vs[..j]
    ensures UpToRelease(vs) == vs[..j]
  {
  }

  /** A suite with a single member visits that member's expansion. */
  lemma VisitsSingle(n: Node)
    ensures Visits([n]) == Expand(n)
  {
    assert [n][..0] == [];
  }

  /** The visits of a non-empty member list: the first member's expansion, then the visits of the rest. */
  lemma VisitsFirst(tests: seq<Node>)
    requires |tests| > 0
    ensures Visits(tests) == Expand(tests[0]) + Visits(tests[1..])
  {
    assert tests == [tests[0]] + tests[1..];
    VisitsAppend([tests[0]], tests[1..]);
    VisitsSingle(tests[0]);
  }

  /** The visits of a suite split around its `i`-th direct child. */
  lemma VisitsSplit(tests: seq<Node>, i: nat)
    requires i < |tests|
    ensures Visits(tests) == Visits(tests[..i]) + (Expand(tests[i]) + Visits(tests[i + 1..]))
  {
    var tail := tests[i..];
    assert Visits(tests) == Visits(tests[..i]) + Visits(tail) by {
      assert tests == tests[..i] + tail;
      VisitsAppend(tests[..i], tail);
    }
    assert Visits(tail) == Expand(tests[i]) + Visits(tests[i + 1..]) by {
      VisitsFirst(tail);
      assert tail[1..] == tests[i + 1..];
    }
  }

  /**
   * When the `i`-th direct child is, or contains, a released slot and the
   * children before it contain none, injection reaches exactly the visits of
   * those earlier children and the part of the `i`-th child before the slot.
   */
  lemma VisitsStopAt(tests: seq<Node>, i: nat)
    requires i < |tests| && Released !in Visits(tests[..i]) && Released in Expand(tests[i])
    ensures Released in Visits(tests)
    ensures UpToRelease(Visits(tests)) == Visits(tests[..i]) + UpToRelease(Expand(tests[i]))
  {
    var pre, e, post := Visits(tests[..i]), Expand(tests[i]), Visits(tests[i + 1..]);
    VisitsSplit(tests, i);
    UpToReleaseAppend(pre, e + post);
    UpToReleaseCut(e, post);
  }

  /** The object whose attributes injection writes for a visited node. */
  function Obj(n: Node): (o: object)
    requires !n.Released?
  {
    if n.Leaf? then n.test else n.suite
  }

  /** The objects injection may write for the nodes `ns`; a released slot has none. */
  ghost function Objs(ns: seq<Node>): (os: set<object>) {
    set n | n in ns && !n.Released? :: Obj(n)
  }

  /** The objects of a prefix grow by the object of the next live node. */
  lemma ObjsStep(ns: seq<Node>, j: nat)
    requires j < |ns| && !ns[j].Released?
    ensures Objs(ns[..j + 1]) == Objs(ns[..j]) + {Obj(ns[j])}
  {
    assert ns[..j + 1] == ns[..j] + [ns[j]];
  }

  /** The objects of two lists of nodes one after the other are the objects of each. */
  lemma ObjsAppend(a: seq<Node>, b: seq<Node>)
    ensures Objs(a + b) == Objs(a) + Objs(b)
  {
    forall o | o in Objs(a + b) ensures o in Objs(a) + Objs(b) {
      var n :| n in a + b && !n.Released? && Obj(n) == o;
    }
  }

  /** When the objects of `ns` all carry the properties, so does every node of `ns`. */
  lemma InjectedAll(ns: seq<Node>, url: string, app: App)
    requires Released !in ns
    requires forall o :: o in Objs(ns) ==> HasProperties(o, url, app)
    ensures forall n :: n in ns ==> Injected(n, url, app)
  {
    forall n | n in ns ensures Injected(n, url, app) {
      assert Obj(n) in Objs(ns);
    }
  }

  /** The objects `_setup_testcases` may write: test cases and suite objects, never the live suite itself. */
  ghost function Targets(tests: seq<Node>): (r: set<object>)
    ensures forall o :: o in r ==> o is TestCase || o is SuiteObject
  {
    Objs(Visits(tests))
  }

  /** Everything injection may write for the `i`-th direct child is among the objects of the whole suite. */
  lemma ChildInTargets(tests: seq<Node>, i: nat)
    requires i < |tests|
    ensures Objs(Expand(tests[i])) <= Targets(tests)
  {
    forall n | n in Expand(tests[i]) && !n.Released? ensures n in Visits(tests) {
      VisitsExactlyOneLevel(tests, n);
    }
  }

  /** The attributes of `o` hold the URL and the application. */
  predicate HasProperties(o: object, url: string, app: App)
    reads o
  {
    && (o is TestCase ==> (o as TestCase).storedUrl == Some(url) && (o as TestCase).app == Some(app))
    && (o is SuiteObject ==> (o as SuiteObject).serverUrl == Some(url) && (o as SuiteObject).app == Some(app))
  }

  /** `n` is a live test or suite, and it carries the URL and the application. */
  predicate Injected(n: Node, url: string, app: App)
    reads if n.Released? then {} else {Obj(n)}
  {
    !n.Released? && HasProperties(Obj(n), url, app)
  }

  /** The server thread `_setup_server` starts: `app.run(host, port, use_reloader=False)` as a daemon. */
  datatype ServerThread = ServerThread(app: App, host: ConfigValue, port: ConfigValue, useReloader: bool, daemon: bool)

  /** A test-run result collector; the ordinary suite run fills it in. */
  class TestResult {
    constructor () { }
  }

  /** The observable steps of a run, in order. */
  datatype Event =
    | ServerStarted(thread: ServerThread)
    | ReadinessProbed(host: string, port: ConfigValue, timeout: Option<real>)
    | PropertiesInjected(url: string, app: App)
    | Delegated(result: TestResult, debug: bool)

  /** What ends a run early: the probe could not connect, or injection raised. */
  datatype RunError = ConnectionFailed | InjectionFailed(error: CaseError)

  class LiveSuite {
    const app: App
    const timeout: Option<real>
    const host: ConfigValue
    const port: ConfigValue
    var tests: seq<Node>
    var thread: Option<ServerThread>
    ghost var trace: seq<Event>

    constructor (flaskApp: App, timeout: TimeoutArg, tests: seq<Node>)
      requires Released !in tests
      ensures app == flaskApp && this.timeout == ResolveTimeout(timeout)
      ensures host == ConfigGet(flaskApp.config, "HOST", Str(Localhost))
      ensures port == ConfigGet(flaskApp.config, "PORT", Int(DefaultPort))
      ensures this.tests == tests && thread == None && trace == []
    {
      app := flaskApp;
      this.timeout := ResolveTimeout(timeout);
      host := ConfigGet(flaskApp.config, "HOST", Str(Localhost));
      port := ConfigGet(flaskApp.config, "PORT", Int(DefaultPort));
      this.tests := tests;
      thread := None;
      trace := [];
    }

    /**
     * `run`: start the server; once it accepts a connection inject the
     * properties and hand over to the ordinary suite run, which releases every
     * slot after running its test, and return the result object.
     * `listening` says whether the readiness probe connected in time.
     */
    method Run(result: TestResult, debug: bool, listening: bool) returns (r: Result<TestResult, RunError>)
      modifies this`thread, this`trace, this`tests, Targets(tests)
      ensures thread == Some(ServerThread(app, host, port, false, true))
      ensures !listening ==> r == Err(ConnectionFailed) && tests == old(tests)
      ensures !listening ==> trace == old(trace) + [ServerStarted(thread.value), ReadinessProbed(Localhost, port, ProbeTimeout(timeout))]
      ensures !listening ==> forall n :: n in Visits(tests) && !n.Released? && old(allocated(n)) ==> unchanged(Obj(n))
      ensures listening ==> forall n :: n in UpToRelease(Visits(old(tests))) ==> Injected(n, ServerUrlFor(port), app)
      ensures listening && Released in Visits(old(tests)) ==>
                forall o :: o in Targets(old(tests)) && o !in Objs(UpToRelease(Visits(old(tests)))) && old(allocated(o)) ==> unchanged(o)
      ensures listening && Released in Visits(old(tests)) ==>
                r == Err(InjectionFailed(AttributeError)) && tests == old(tests)
                && trace == old(trace) + [ServerStarted(thread.value), ReadinessProbed(Localhost, port, ProbeTimeout(timeout))]
      ensures listening && Released !in Visits(old(tests)) ==>
                r == Ok(result)
                && |tests| == |old(tests)| && (forall i :: 0 <= i < |tests| ==> tests[i] == Released)
                && trace == old(trace) + [ServerStarted(thread.value), ReadinessProbed(Localhost, port, ProbeTimeout(timeout)),
                                          PropertiesInjected(ServerUrlFor(port), app), Delegated(result, debug)]
    {
      assert this !in Targets(tests);
      var ready := SetupServer(listening);
      if !ready {
        return Err(ConnectionFailed);
      }
      var injected := SetupTestcases();
      if injected.Err? {
        return Err(InjectionFailed(injected.error));
      }
      trace := trace + [PropertiesInjected(ServerUrlFor(port), app)];
      trace := trace + [Delegated(result, debug)];
      tests := seq(|tests|, _ => Released);
      r := Ok(result);
    }

    /** `_setup_server`: start the daemon server thread, then probe the port on the loopback address. */
    method SetupServer(listening: bool) returns (ready: bool)
      modifies this`thread, this`trace
      ensures thread == Some(ServerThread(app, host, port, false, true))
      ensures trace == old(trace) + [ServerStarted(thread.value), ReadinessProbed(Localhost, port, ProbeTimeout(timeout))]
      ensures ready == listening
    {
      thread := Some(ServerThread(app, host, port, false, true));
      trace := trace + [ServerStarted(thread.value)];
      trace := trace + [ReadinessProbed(Localhost, port, ProbeTimeout(timeout))];
      ready := listening;
    }

    /**
     * `_inject_properties`: give one test the URL and the application; on a
     * released slot the attribute write raises `AttributeError`.
     */
    method InjectProperties(n: Node) returns (r: Result<(), CaseError>)
      modifies if n.Released? then {} else {Obj(n)}
      ensures r.Err? <==> n.Released?
      ensures r.Err? ==> r.error == AttributeError
      ensures r.Ok? ==> Injected(n, ServerUrlFor(port), app)
    {
      var url := ServerUrlFor(port);
      match n
      case Leaf(t) =>
        t.SetServerUrl(url);
        t.app := Some(app);
        r := Ok(());
      case Group(s, _) =>
        s.serverUrl := Some(url);
        s.app := Some(app);
        r := Ok(());
      case Released =>
        r := Err(AttributeError);
    }

    /**
     * The inner loop of `_setup_testcases`: inject into the members of one
     * child suite in order, stopping at the first released slot.
     */
    method InjectMembers(members: seq<Node>, url: string, ghost done0: set<object>)
      returns (r: Result<(), CaseError>, ghost done: set<object>)
      requires url == ServerUrlFor(port)
      requires forall o :: o in done0 ==> HasProperties(o, url, app)
      modifies Objs(members)
      ensures r.Ok? <==> Released !in members
      ensures r.Err? ==> r.error == AttributeError
      ensures forall n :: n in UpToRelease(members) ==> Injected(n, url, app)
      ensures done == done0 + Objs(UpToRelease(members))
      ensures forall o :: o in done ==> HasProperties(o, url, app)
      ensures forall o :: o in Objs(members) && o !in Objs(UpToRelease(members)) ==> unchanged(o)
    {
      ghost var written: set<object> := {};
      for j := 0 to |members|
        invariant Released !in members[..j]
        invariant written == Objs(members[..j])
        invariant forall o :: o in done0 + written ==> HasProperties(o, url, app)
        invariant forall o :: o in Objs(members) && o !in written ==> unchanged(o)
      {
        r, written := InjectMember(members, j, url, done0, written);
        if r.Err? {
          InjectedAll(members[..j], url, app);
          done := done0 + written;
          return;
        }
      }
      assert members[..|members|] == members;
      InjectedAll(members, url, app);
      done := done0 + written;
      r := Ok(());
    }

    /**
     * One pass of the inner loop: inject into the `j`-th member once those
     * before it hold the properties, and add its object to those written.
     */
    method InjectMember(members: seq<Node>, j: nat, url: string, ghost done0: set<object>, ghost written: set<object>)
      returns (r: Result<(), CaseError>, ghost written': set<object>)
      requires j < |members| && url == ServerUrlFor(port)
      requires Released !in members[..j] && written == Objs(members[..j])
      requires forall o :: o in done0 + written ==> HasProperties(o, url, app)
      modifies Objs(members)
      ensures r.Ok? <==> !members[j].Released?
      ensures r.Err? ==> r.error == AttributeError && UpToRelease(members) == members[..j] && written' == written
      ensures r.Ok? ==> Released !in members[..j + 1] && written' == Objs(members[..j + 1])
      ensures written <= written'
      ensures forall o :: o in done0 + written' ==> HasProperties(o, url, app)
      ensures forall o :: o in Objs(members) && o !in written' ==> unchanged(o)
    {
      r := InjectProperties(members[j]);
      if r.Err? {
        UpToReleaseAt(members, j);
        written' := written;
        return;
      }
      ObjsStep(members, j);
      assert Released !in members[..j + 1] by {
        assert members[..j + 1] == members[..j] + [members[j]];
      }
      written' := written + {Obj(members[j])};
    }

    /**
     * One pass of the outer loop of `_setup_testcases`: inject into a direct
     * test case, or into the members of a direct child suite.
     */
    method InjectChild(test: Node, url: string, ghost done0: set<object>)
      returns (r: Result<(), CaseError>, ghost done: set<object>)
      requires url == ServerUrlFor(port)
      requires forall o :: o in done0 ==> HasProperties(o, url, app)
      modifies Objs(Expand(test))
      ensures r.Ok? <==> Released !in Expand(test)
      ensures r.Err? ==> r.error == AttributeError
      ensures done0 <= done
      ensures forall n :: n in UpToRelease(Expand(test)) ==> Obj(n) in done
      ensures forall o :: o in done ==> HasProperties(o, url, app)
      ensures forall o :: o in Objs(Expand(test)) && o !in Objs(UpToRelease(Expand(test))) ==> unchanged(o)
    {
      if IsNotSuite(test) {
        r := InjectProperties(test);
        done := if r.Ok? then done0 + {Obj(test)} else done0;
        assert r.Err? ==> Objs(Expand(test)) == {};
      } else {
        r, done := InjectMembers(Iter(test).value, url, done0);
      }
    }

    /**
     * `_setup_testcases`: inject into every direct test case and every member
     * of a direct child suite, in order, until a released slot raises.
     */
    method SetupTestcases() returns (r: Result<(), CaseError>)
      modifies Targets(tests)
      ensures tests == old(tests)
      ensures r.Ok? <==> Released !in Visits(tests)
      ensures r.Err? ==> r.error == AttributeError
      ensures forall n :: n in UpToRelease(Visits(tests)) ==> Injected(n, ServerUrlFor(port), app)
      ensures forall o :: o in Targets(tests) && o !in Objs(UpToRelease(Visits(tests))) && old(allocated(o)) ==> unchanged(o)
    {
      assert this !in Targets(tests);
      var url := ServerUrlFor(port);
      var children := tests;
      ghost var done: set<object> := {};
      for i := 0 to |children|
        invariant Released !in Visits(children[..i])
        invariant forall n :: n in Visits(children[..i]) && !n.Released? ==> Obj(n) in done
        invariant forall o :: o in done ==> HasProperties(o, url, app)
        invariant forall o :: o in Targets(children) && o !in Objs(Visits(children[..i])) && old(allocated(o)) ==> unchanged(o)
      {
        ChildInTargets(children, i);
        r, done := InjectChild(children[i], url, done);
        VisitsStep(children, i);
        if r.Err? {
          VisitsStopAt(children, i);
          ObjsAppend(Visits(children[..i]), UpToRelease(Expand(children[i])));
          return;
        }
        ObjsAppend(Visits(children[..i]), Expand(children[i]));
      }
      assert children[..|children|] == children;
      r := Ok(());
    }
  }

  /** Which nodes a suite of the shape used by `NestedInjection` visits, and which objects it leaves alone. */
  lemma NestedVisits(a: TestCase, b: TestCase, c: TestCase, inner: SuiteObject, child: SuiteObject)
    requires c != a && c != b && child != inner
    ensures var tests := [Leaf(a), Group(child, [Leaf(b), Group(inner, [Leaf(c)])])];
            && (forall o :: o in Targets(tests) ==> o == a || o == b || o == inner)
            && Leaf(a) in Visits(tests) && Leaf(b) in Visits(tests) && Group(inner, [Leaf(c)]) in Visits(tests)
            && Released !in Visits(tests)
  {
    var nested := Group(inner, [Leaf(c)]);
    var tests := [Leaf(a), Group(child, [Leaf(b), nested])];
    assert tests[..1] == [Leaf(a)];
    assert Visits(tests[..1]) == [Leaf(a)] by {
      assert tests[..1][..0] == [];
    }
    assert Expand(tests[1]) == [Leaf(b), nested];
    assert Visits(tests) == [Leaf(a), Leaf(b), nested];
    forall n | n in Visits(tests) && !n.Released? ensures Obj(n) in {a, b, inner} {
      assert n in [Leaf(a), Leaf(b), nested];
    }
  }

  /**
   * Injection into a suite holding a test case and a child suite whose members
   * are a test case and a further suite that holds one more test case: the
   * direct test case and both members of the child suite, the nested suite
   * object included, receive the URL built from the configured port.
   */
  method NestedInjection(config: map<string, ConfigValue>)
    returns (direct: Result<string, CaseError>, member: Result<string, CaseError>, nestedSuite: Option<string>)
    ensures var url := ServerUrlFor(ConfigGet(config, "PORT", Int(DefaultPort)));
            direct == Ok(url) && member == Ok(url) && nestedSuite == Some(url)
  {
    var flaskApp := new App(config);
    var a := new TestCase();
    var b := new TestCase();
    var c := new TestCase();
    var inner := new SuiteObject();
    var child := new SuiteObject();
    var nested := Group(inner, [Leaf(c)]);
    NestedVisits(a, b, c, inner, child);
    var suite := new LiveSuite(flaskApp, DefaultTimeout, [Leaf(a), Group(child, [Leaf(b), nested])]);
    var injected := suite.SetupTestcases();
    ghost var url := ServerUrlFor(suite.port);
    assert Injected(Leaf(a), url, flaskApp);
    assert Injected(Leaf(b), url, flaskApp);
    assert Injected(nested, url, flaskApp);
    direct := a.ServerUrl();
    member := b.ServerUrl();
    nestedSuite := inner.serverUrl;
  }

  /**
   * The same suite as in `NestedInjection`: the child suite object itself and
   * the test case two levels down keep nothing, so reading the deeper test
   * case's `server_url` still fails.
   */
  method InjectionStopsOneLevelDown(config: map<string, ConfigValue>)
    returns (grandchild: Result<string, CaseError>, childSuite: Option<string>)
    ensures grandchild == Err(AttributeError) && childSuite == None
  {
    var flaskApp := new App(config);
    var a := new TestCase();
    var b := new TestCase();
    var c := new TestCase();
    var inner := new SuiteObject();
    var child := new SuiteObject();
    NestedVisits(a, b, c, inner, child);
    var suite := new LiveSuite(flaskApp, DefaultTimeout, [Leaf(a), Group(child, [Leaf(b), Group(inner, [Leaf(c)])])]);
    var injected := suite.SetupTestcases();
    grandchild := c.ServerUrl();
    childSuite := child.serverUrl;
  }

  /**
   * Running the same suite twice: the first run injects and hands over, and
   * the ordinary suite run releases the slot of every test it ran, so the
   * second run's injection meets a released slot and raises `AttributeError`.
   */
  method SecondRunFails(config: map<string, ConfigValue>)
    returns (first: Result<TestResult, RunError>, second: Result<TestResult, RunError>)
    ensures first.Ok? && second == Err(InjectionFailed(AttributeError))
  {
    var flaskApp := new App(config);
    var a := new TestCase();
    var suite := new LiveSuite(flaskApp, DefaultTimeout, [Leaf(a)]);
    var result := new TestResult();
    VisitsSingle(Leaf(a));
    first := suite.Run(result, false, true);
    assert suite.tests == [Released];
    VisitsSingle(Released);
    second := suite.Run(result, false, true);
  }
}

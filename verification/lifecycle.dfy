/**
 * The per-scenario session lifecycle of the hooks: before a scenario, take
 * the next profile from the shared cursor, connect a remote browser for it
 * and open a context and a page; after the scenario, close what was opened.
 *
 * The remote-browser driver is not modelled: each call the hooks make on it
 * is a `Call` value, the calls that return normally are appended to the
 * hooks' call log, and the set `faults` names the calls that throw.
 */
module Lifecycle {
  import opened Wrappers
  import opened Capabilities
  import opened Rotation
  import opened Endpoint
  import opened Status

  datatype Viewport = Viewport(width: int, height: int)

  const ScenarioViewport: Viewport := Viewport(1920, 1080)
  const ScenarioPermissions: seq<string> := ["clipboard-read", "clipboard-write", "geolocation"]
  const EntryUrl: string := "https://www.linklogistics.com/"
  const StatusScript: string := "_ => {}"

  /** The calls the hooks make on the remote-browser driver, with their arguments. */
  datatype Call =
    | CreatePlaywright
    | Connect(endpoint: string)
    | NewContext(viewport: Viewport)
    | GrantPermissions(permissions: seq<string>)
    | NewPage
    | Goto(url: string)
    | CloseContext
    | CloseBrowser
    | DisposePlaywright
    | Evaluate(expression: string, arg: string)

  /** What a handle field holds once the call that creates it has returned. */
  datatype Handle = Driver | Browser(endpoint: string) | Context(viewport: Viewport) | Page

  /** The four nullable handle fields of the hooks. */
  datatype Handles = Handles(playwright: Option<Handle>, browser: Option<Handle>,
                             context: Option<Handle>, page: Option<Handle>)

  const NoHandles: Handles := Handles(None, None, None, None)

  /**
   * The calls of `plan` that return normally when the calls in `faults`
   * throw: the longest prefix of `plan` free of faults, since the first
   * exception ends the sequence.
   */
  function Completed(plan: seq<Call>, faults: set<Call>): (done: seq<Call>)
    ensures |done| <= |plan| && done == plan[..|done|]
    ensures forall i :: 0 <= i < |done| ==> done[i] !in faults
    ensures |done| < |plan| ==> plan[|done|] in faults
  {
    if plan == [] || plan[0] in faults then []
    else [plan[0]] + Completed(plan[1..], faults)
  }

  /** The first `k` calls completing and call `k` throwing (or being the last) fixes `Completed`. */
  lemma CompletedIs(plan: seq<Call>, faults: set<Call>, k: nat)
    requires k <= |plan|
    requires forall i :: 0 <= i < k ==> plan[i] !in faults
    requires k < |plan| ==> plan[k] in faults
    ensures Completed(plan, faults) == plan[..k]
  {
  }

  /**
   * Running `a` then `b` completes what `a` completes, and only when all of
   * `a` completes does any of `b` run.
   */
  lemma {:induction false} CompletedAppend(a: seq<Call>, b: seq<Call>, faults: set<Call>)
    ensures Completed(a + b, faults)
      == if Completed(a, faults) == a then a + Completed(b, faults) else Completed(a, faults)
  {
    if a == [] {
      assert a + b == b;
    } else {
      assert (a + b)[0] == a[0] && (a + b)[1..] == a[1..] + b;
      if a[0] !in faults {
        CompletedAppend(a[1..], b, faults);
        assert a == [a[0]] + a[1..];
      }
    }
  }

  /** Without faults every call of the plan completes. */
  lemma CompletedWithoutFaults(plan: seq<Call>)
    ensures Completed(plan, {}) == plan
  {
  }

  /** The effect on the handle fields of a call that returned normally. */
  function Apply(h: Handles, c: Call): Handles
  {
    match c
    case CreatePlaywright => h.(playwright := Some(Driver))
    case Connect(endpoint) => h.(browser := Some(Browser(endpoint)))
    case NewContext(viewport) => h.(context := Some(Context(viewport)))
    case NewPage => h.(page := Some(Page))
    case _ => h
  }

  /** The handle fields after `calls`, in order, starting from `h`. */
  function ApplyAll(h: Handles, calls: seq<Call>): Handles
    decreases |calls|
  {
    if calls == [] then h
    else Apply(ApplyAll(h, calls[..|calls| - 1]), calls[|calls| - 1])
  }

  lemma ApplyAllStep(h: Handles, calls: seq<Call>, c: Call)
    ensures ApplyAll(h, calls + [c]) == Apply(ApplyAll(h, calls), c)
  {
  }

  /** Rank of each teardown call in the after-scenario hook. */
  function TeardownRank(c: Call): nat
  {
    match c
    case CloseContext => 0
    case CloseBrowser => 1
    case DisposePlaywright => 2
    case _ => 3
  }

  /**
   * The driver calls of the before-scenario hook, in source order: create
   * the driver, connect to `endpoint`, open the context, grant the
   * permissions, open the page and navigate. None of them closes anything.
   */
  function OpenPlan(endpoint: string): (plan: seq<Call>)
    ensures |plan| == 6 && Connect(endpoint) in plan
    ensures forall i :: 0 <= i < |plan| ==> TeardownRank(plan[i]) == 3
  {
    [CreatePlaywright, Connect(endpoint), NewContext(ScenarioViewport),
     GrantPermissions(ScenarioPermissions), NewPage, Goto(EntryUrl)]
  }

  /**
   * The handle fields once the first `k` calls of the open sequence have
   * returned: the driver after one call, the browser after two, the context
   * after three, the page after five; the others keep their earlier values.
   */
  function OpenedHandles(h: Handles, endpoint: string, k: nat): Handles
  {
    Handles(
      if 1 <= k then Some(Driver) else h.playwright,
      if 2 <= k then Some(Browser(endpoint)) else h.browser,
      if 3 <= k then Some(Context(ScenarioViewport)) else h.context,
      if 5 <= k then Some(Page) else h.page)
  }

  /**
   * Applying the first `k` calls of the open sequence one by one sets
   * exactly the handles those calls create, with the endpoint and viewport
   * they were created with.
   */
  lemma {:induction false} OpenPrefixHandles(h: Handles, endpoint: string, k: nat)
    requires k <= |OpenPlan(endpoint)|
    ensures ApplyAll(h, OpenPlan(endpoint)[..k]) == OpenedHandles(h, endpoint, k)
  {
    var plan := OpenPlan(endpoint);
    if k > 0 {
      OpenPrefixHandles(h, endpoint, k - 1);
      assert plan[..k] == plan[..k - 1] + [plan[k - 1]];
      ApplyAllStep(h, plan[..k - 1], plan[k - 1]);
    }
  }

  /**
   * The driver calls of the after-scenario hook: close the context, close
   * the browser, dispose the driver, each only when its field is non-null,
   * and never a call on the page.
   */
  function TeardownPlan(h: Handles): (plan: seq<Call>)
    ensures |plan| == (if h.context.Some? then 1 else 0) + (if h.browser.Some? then 1 else 0)
                      + (if h.playwright.Some? then 1 else 0)
  {
    (if h.context.Some? then [CloseContext] else [])
    + (if h.browser.Some? then [CloseBrowser] else [])
    + (if h.playwright.Some? then [DisposePlaywright] else [])
  }

  /**
   * The teardown plan closes the context, the browser and the driver each
   * exactly when its field is non-null, strictly in that order, and makes no
   * other call (in particular none on the page).
   */
  lemma TeardownPlanShape(h: Handles)
    ensures var plan := TeardownPlan(h);
      && (CloseContext in plan <==> h.context.Some?)
      && (CloseBrowser in plan <==> h.browser.Some?)
      && (DisposePlaywright in plan <==> h.playwright.Some?)
      && (forall i :: 0 <= i < |plan| ==> TeardownRank(plan[i]) < 3)
      && (forall i, j :: 0 <= i < j < |plan| ==> TeardownRank(plan[i]) < TeardownRank(plan[j]))
  {
  }

  /**
   * Teardown without try/catch: each close is made when its field is
   * non-null and no earlier close has thrown; a throwing close skips every
   * later one.
   */
  lemma TeardownStopsAtFault(h: Handles, faults: set<Call>)
    ensures var done := Completed(TeardownPlan(h), faults);
      && (CloseContext in done <==> h.context.Some? && CloseContext !in faults)
      && (CloseBrowser in done <==>
            && h.browser.Some? && CloseBrowser !in faults
            && (h.context.Some? ==> CloseContext !in faults))
      && (DisposePlaywright in done <==>
            && h.playwright.Some? && DisposePlaywright !in faults
            && (h.browser.Some? ==> CloseBrowser !in faults)
            && (h.context.Some? ==> CloseContext !in faults))
  {
    var closeContext := if h.context.Some? then [CloseContext] else [];
    var closeBrowser := if h.browser.Some? then [CloseBrowser] else [];
    var dispose := if h.playwright.Some? then [DisposePlaywright] else [];
    CompletedAppend(closeContext + closeBrowser, dispose, faults);
    CompletedAppend(closeContext, closeBrowser, faults);
  }

  /**
   * A partly failed open is still released by the teardown: when the
   * after-scenario hook runs without faults, it closes the context and the
   * browser and disposes the driver exactly when the open got as far as
   * creating them.
   */
  lemma PartialOpenIsReleased(endpoint: string, faults: set<Call>)
    ensures var openCalls := Completed(OpenPlan(endpoint), faults);
      var closed := Completed(TeardownPlan(OpenedHandles(NoHandles, endpoint, |openCalls|)), {});
      && (DisposePlaywright in closed <==> CreatePlaywright in openCalls)
      && (CloseBrowser in closed <==> Connect(endpoint) in openCalls)
      && (CloseContext in closed <==> NewContext(ScenarioViewport) in openCalls)
  {
    var plan := OpenPlan(endpoint);
    var openCalls := Completed(plan, faults);
    var k := |openCalls|;
    var h := OpenedHandles(NoHandles, endpoint, k);
    CompletedWithoutFaults(TeardownPlan(h));
    assert CreatePlaywright in openCalls <==> 1 <= k by {
      if 1 <= k { assert openCalls[0] == CreatePlaywright; }
    }
    assert Connect(endpoint) in openCalls <==> 2 <= k by {
      if 2 <= k { assert openCalls[1] == Connect(endpoint); }
    }
    assert NewContext(ScenarioViewport) in openCalls <==> 3 <= k by {
      if 3 <= k { assert openCalls[2] == NewContext(ScenarioViewport); }
    }
  }

  /**
   * Part way through a hook: the first `k` calls of `plan` have returned
   * normally and were appended, in order, to the log.
   */
  ghost predicate Progress(log: seq<Call>, log0: seq<Call>, plan: seq<Call>, faults: set<Call>, k: nat)
  {
    && k <= |plan|
    && (forall i :: 0 <= i < k ==> plan[i] !in faults)
    && log == log0 + plan[..k]
  }

  /** One more call of the plan that does not throw extends the progress by one. */
  lemma ProgressStep(log: seq<Call>, log': seq<Call>, log0: seq<Call>,
                     plan: seq<Call>, faults: set<Call>, k: nat)
    requires Progress(log, log0, plan, faults, k)
    requires k < |plan| && plan[k] !in faults && log' == log + [plan[k]]
    ensures Progress(log', log0, plan, faults, k + 1)
  {
  }

  /** A hook that stops after `k` calls, by a fault or at the end, has made exactly `Completed`. */
  lemma ProgressDone(log: seq<Call>, log0: seq<Call>, plan: seq<Call>, faults: set<Call>, k: nat)
    requires Progress(log, log0, plan, faults, k)
    requires k < |plan| ==> plan[k] in faults
    ensures Completed(plan, faults) == plan[..k] && |Completed(plan, faults)| == k
    ensures log == log0 + Completed(plan, faults)
  {
  }

  /** The hooks of one scenario: the handle fields and the log of driver calls. */
  class ScenarioHooks {
    var page: Option<Handle>
    var browser: Option<Handle>
    var playwright: Option<Handle>
    var browserContext: Option<Handle>
    /** The driver calls that returned normally, in the order they were made. */
    var calls: seq<Call>

    function HandleFields(): Handles
      reads this`playwright, this`browser, this`browserContext, this`page
    {
      Handles(playwright, browser, browserContext, page)
    }

    constructor ()
      ensures HandleFields() == NoHandles && calls == []
    {
      page, browser, playwright, browserContext := None, None, None, None;
      calls := [];
    }

    /**
     * Before a scenario: take the next profile from the shared cursor (one
     * atomic read-and-advance), build its endpoint and open a session on it.
     * A failing open leaves the cursor advanced.
     */
    method InvokeBrowserBeforeScenario(cursor: RotationCursor<Profile>,
                                       serialize: Profile -> string, escape: string -> string,
                                       faults: set<Call>)
      returns (r: Result<Handle, Call>)
      requires cursor.Valid()
      modifies this, cursor
      ensures cursor.Valid()
      ensures cursor.index == (old(cursor.index) + 1) % |cursor.catalog|
      ensures cursor.handedOut == old(cursor.handedOut) + [cursor.catalog[old(cursor.index)]]
      ensures var cdpUrl := EndpointUrl(cursor.catalog[old(cursor.index)], serialize, escape);
        var plan := OpenPlan(cdpUrl);
        var done := Completed(plan, faults);
        && calls == old(calls) + done
        && HandleFields() == ApplyAll(old(HandleFields()), done)
        && HandleFields() == OpenedHandles(old(HandleFields()), cdpUrl, |done|)
        && r == (if done == plan then Success(Page) else Failure(plan[|done|]))
    {
      ghost var h0 := HandleFields();
      var selected := cursor.Next();
      var cdpUrl := EndpointUrl(selected, serialize, escape);
      r := OpenSession(cdpUrl, faults);
      OpenPrefixHandles(h0, cdpUrl, |Completed(OpenPlan(cdpUrl), faults)|);
    }

    /**
     * Create the driver, connect to `cdpUrl`, open a 1920x1080 context,
     * grant the permissions, open a page and navigate to the entry URL. A
     * throwing call ends the hook; the fields it already set stay set.
     */
    method OpenSession(cdpUrl: string, faults: set<Call>) returns (r: Result<Handle, Call>)
      modifies this
      ensures var plan := OpenPlan(cdpUrl);
        var done := Completed(plan, faults);
        && calls == old(calls) + done
        && HandleFields() == OpenedHandles(old(HandleFields()), cdpUrl, |done|)
        && r == (if done == plan then Success(Page) else Failure(plan[|done|]))
    {
      ghost var plan := OpenPlan(cdpUrl);
      ghost var log0 := calls;
      ghost var log := log0;
      assert Progress(log, log0, plan, faults, 0);

      if CreatePlaywright in faults {
        ProgressDone(log, log0, plan, faults, 0);
        return Failure(CreatePlaywright);
      }
      playwright := Some(Driver);
      calls := calls + [CreatePlaywright];
      ProgressStep(log, calls, log0, plan, faults, 0);
      log := calls;

      if Connect(cdpUrl) in faults {
        ProgressDone(log, log0, plan, faults, 1);
        return Failure(Connect(cdpUrl));
      }
      browser := Some(Browser(cdpUrl));
      calls := calls + [Connect(cdpUrl)];
      ProgressStep(log, calls, log0, plan, faults, 1);
      log := calls;

      if NewContext(ScenarioViewport) in faults {
        ProgressDone(log, log0, plan, faults, 2);
        return Failure(NewContext(ScenarioViewport));
      }
      browserContext := Some(Context(ScenarioViewport));
      calls := calls + [NewContext(ScenarioViewport)];
      ProgressStep(log, calls, log0, plan, faults, 2);
      log := calls;

      if GrantPermissions(ScenarioPermissions) in faults {
        ProgressDone(log, log0, plan, faults, 3);
        return Failure(GrantPermissions(ScenarioPermissions));
      }
      calls := calls + [GrantPermissions(ScenarioPermissions)];
      ProgressStep(log, calls, log0, plan, faults, 3);
      log := calls;

      if NewPage in faults {
        ProgressDone(log, log0, plan, faults, 4);
        return Failure(NewPage);
      }
      page := Some(Page);
      calls := calls + [NewPage];
      ProgressStep(log, calls, log0, plan, faults, 4);
      log := calls;

      if Goto(EntryUrl) in faults {
        ProgressDone(log, log0, plan, faults, 5);
        return Failure(Goto(EntryUrl));
      }
      calls := calls + [Goto(EntryUrl)];
      ProgressStep(log, calls, log0, plan, faults, 5);
      log := calls;

      ProgressDone(log, log0, plan, faults, 6);
      return Success(Page);
    }

    /**
     * After a scenario: close the context, then the browser, then dispose
     * the driver, each guarded by a null check, with no exception handling.
     * The fields are not cleared.
     */
    method AfterScenario(faults: set<Call>) returns (r: Outcome<Call>)
      modifies this`calls
      ensures HandleFields() == old(HandleFields())
      ensures var plan := TeardownPlan(old(HandleFields()));
        var done := Completed(plan, faults);
        && calls == old(calls) + done
        && r == (if done == plan then Pass else Fail(plan[|done|]))
    {
      ghost var plan := TeardownPlan(HandleFields());
      ghost var log0 := calls;
      ghost var k := 0;
      assert Progress(calls, log0, plan, faults, 0);

      if browserContext != None {
        if CloseContext in faults {
          ProgressDone(calls, log0, plan, faults, k);
          return Fail(CloseContext);
        }
        calls := calls + [CloseContext];
        ProgressStep(log0, calls, log0, plan, faults, k);
        k := k + 1;
      }

      if browser != None {
        assert plan[k] == CloseBrowser;
        if CloseBrowser in faults {
          ProgressDone(calls, log0, plan, faults, k);
          return Fail(CloseBrowser);
        }
        ghost var log := calls;
        calls := calls + [CloseBrowser];
        ProgressStep(log, calls, log0, plan, faults, k);
        k := k + 1;
      }

      if playwright != None {
        assert plan[k] == DisposePlaywright;
        if DisposePlaywright in faults {
          ProgressDone(calls, log0, plan, faults, k);
          return Fail(DisposePlaywright);
        }
        ghost var log := calls;
        calls := calls + [DisposePlaywright];
        ProgressStep(log, calls, log0, plan, faults, k);
        k := k + 1;
      }

      ProgressDone(calls, log0, plan, faults, k);
      return Pass;
    }

    /** Report a scenario's status through the page's script channel. */
    method MarkTestStatus(status: string, reason: string, faults: set<Call>) returns (r: Outcome<Call>)
      requires page.Some?
      modifies this`calls
      ensures var call := Evaluate(StatusScript, StatusPayload(status, reason));
        && calls == old(calls) + Completed([call], faults)
        && r == (if call in faults then Fail(call) else Pass)
    {
      var call := Evaluate(StatusScript, StatusPayload(status, reason));
      if call in faults {
        CompletedIs([call], faults, 0);
        return Fail(call);
      }
      calls := calls + [call];
      CompletedIs([call], faults, 1);
      return Pass;
    }
  }

  /**
   * The start of a scenario on fresh hooks, with no driver call throwing:
   * the before-scenario hook takes the next profile from the shared cursor
   * and opens a session on its endpoint, setting all four handle fields.
   */
  method OpenScenario(cursor: RotationCursor<Profile>, serialize: Profile -> string, escape: string -> string)
    returns (hooks: ScenarioHooks, endpoint: string)
    requires cursor.Valid()
    modifies cursor
    ensures fresh(hooks)
    ensures cursor.Valid() && cursor.index == Advance(old(cursor.index), |cursor.catalog|)
    ensures cursor.handedOut == old(cursor.handedOut) + [cursor.catalog[old(cursor.index)]]
    ensures endpoint == EndpointUrl(cursor.catalog[old(cursor.index)], serialize, escape)
    ensures hooks.calls == OpenPlan(endpoint)
    ensures hooks.HandleFields() == OpenedHandles(NoHandles, endpoint, 6)
  {
    endpoint := EndpointUrl(cursor.catalog[cursor.index], serialize, escape);
    CompletedWithoutFaults(OpenPlan(endpoint));
    hooks := new ScenarioHooks();
    var session := hooks.InvokeBrowserBeforeScenario(cursor, serialize, escape, {});
  }

  /**
   * One whole scenario on fresh hooks, with no driver call throwing: the
   * session is opened on the endpoint of the profile at the cursor, and the
   * after-scenario hook then closes the context, the browser and the driver.
   */
  method RunScenario(cursor: RotationCursor<Profile>, serialize: Profile -> string, escape: string -> string)
    returns (name: string, endpoint: string, log: seq<Call>)
    requires cursor.Valid() && forall i :: 0 <= i < |cursor.catalog| ==> "name" in cursor.catalog[i]
    modifies cursor
    ensures cursor.Valid() && cursor.index == Advance(old(cursor.index), |cursor.catalog|)
    ensures cursor.handedOut == old(cursor.handedOut) + [cursor.catalog[old(cursor.index)]]
    ensures name == cursor.catalog[old(cursor.index)]["name"]
    ensures endpoint == EndpointUrl(cursor.catalog[old(cursor.index)], serialize, escape)
    ensures log == OpenPlan(endpoint) + [CloseContext, CloseBrowser, DisposePlaywright]
  {
    name := cursor.catalog[cursor.index]["name"];
    var hooks;
    hooks, endpoint := OpenScenario(cursor, serialize, escape);
    ghost var full := OpenedHandles(NoHandles, endpoint, 6);
    assert TeardownPlan(full) == [CloseContext, CloseBrowser, DisposePlaywright];
    CompletedWithoutFaults(TeardownPlan(full));
    var closed := hooks.AfterScenario({});
    log := hooks.calls;
  }

  /**
   * Five scenarios run one after another from a fresh cursor get the
   * profiles Chrome, Edge, Chromium, Chrome, Edge, and each connects to the
   * endpoint of its own profile.
   */
  method FiveScenarios(serialize: Profile -> string, escape: string -> string)
    returns (names: seq<string>, endpoints: seq<string>)
    ensures names == [
      "Branded Google Chrome on Catalina", "Branded Microsoft Edge on Catalina",
      "Playwright chromium on Catalina",
      "Branded Google Chrome on Catalina", "Branded Microsoft Edge on Catalina"]
    ensures var catalog := CapabilitiesList();
      endpoints == [
        EndpointUrl(catalog[0], serialize, escape), EndpointUrl(catalog[1], serialize, escape),
        EndpointUrl(catalog[2], serialize, escape),
        EndpointUrl(catalog[0], serialize, escape), EndpointUrl(catalog[1], serialize, escape)]
  {
    var catalog := CapabilitiesList();
    CatalogNames();
    var cursor := new RotationCursor(catalog);
    var n0, e0, _ := RunScenario(cursor, serialize, escape);
    var n1, e1, _ := RunScenario(cursor, serialize, escape);
    var n2, e2, _ := RunScenario(cursor, serialize, escape);
    var n3, e3, _ := RunScenario(cursor, serialize, escape);
    var n4, e4, _ := RunScenario(cursor, serialize, escape);
    names := [n0, n1, n2, n3, n4];
    endpoints := [e0, e1, e2, e3, e4];
  }
}

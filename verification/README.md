# BrowserStack scenario hooks — a Dafny model

This project models the scenario hooks of a SpecFlow + Playwright test suite that
runs its scenarios in parallel on BrowserStack. Each scenario receives one
capability profile: a browser/OS combination from a fixed catalog, handed out
round-robin by one shared cursor. The hooks then connect a remote browser for that
profile, open a 1920x1080 context and a page, and navigate to the site under test.
After the scenario they close what they opened. A static helper reports the
scenario's status to BrowserStack through the page's script channel.

Modules (one file each):

- `Wrappers`: `Option`, `Result` and `Outcome`, which stand in for nulls and exceptions.
- `Capabilities`: the three-profile catalog as a constant sequence of string maps.
- `Rotation`: the round-robin schedule as a function, with its lemmas. Also the
  shared cursor as a class with an `index` field and a `Next` method.
- `Endpoint`: the WebSocket endpoint built from a profile. JSON serialisation and
  URI escaping are function-typed parameters.
- `Status`: the status payload string, a reader for it, and its properties.
- `Lifecycle`: the hooks as a class. It holds the four nullable handle fields and
  a log of the remote-driver calls that returned normally. The before-scenario
  hook, the after-scenario hook and the status report are methods on it. A
  parameter `faults` names the driver calls that throw.

The code does not do everything such hooks are often expected to do, and the model follows the code:

- Key sets differ. The third profile has no `browser_version` key, so the profiles
  do not all carry the same key set.
- Teardown stops at the first error. It has no exception handling, so a close that
  throws skips every later close. It is not best-effort.
- Teardown never closes the page on its own, and it never clears the handle fields.
  A second teardown therefore issues the same close calls again; it is not a no-op.
- The payload is not plain JSON: it starts with `browserstack_executor: `, it has
  spaces after some separators, and it splices `status` and `reason` in without
  escaping.
- There is no empty-catalog check. The catalog is a non-empty literal; the cursor
  class requires a non-empty catalog because indexing an empty one faults.

## Model

| member | source | states |
|---|---|---|
| `Capabilities.CapabilitiesList` | BrowserStackDemo/Hooks/Hooks.cs:125-168 | Exactly three profiles: chrome, edge, playwright-chromium. Names are pairwise distinct. All share build `playwright-dotnet-3`, os `osx` and os_version `catalina`. The credential keys hold the variable names `BROWSERSTACK_USERNAME` and `BROWSERSTACK_ACCESS_KEY`. The first two add `browser_version = latest`; the third has no `browser_version` key. |
| `Capabilities.CatalogKeyCounts` | BrowserStackDemo/Hooks/Hooks.cs:129-164 | The first two profiles have 8 keys and the third has 7, so the key sets are not uniform. |
| `Capabilities.CatalogNames` | BrowserStackDemo/Hooks/Hooks.cs:129-164 | The profiles are named, in catalog order, `Branded Google Chrome on Catalina`, `Branded Microsoft Edge on Catalina` and `Playwright chromium on Catalina`. |
| `Rotation.ScheduleAt` | BrowserStackDemo/Hooks/Hooks.cs:58-63 | Call `j` of a run from cursor `start` returns the entry at `(start + j) mod n`. |
| `Rotation.ScheduleExtend` | BrowserStackDemo/Hooks/Hooks.cs:61-62 | One more read-and-advance appends the entry at the cursor's current position to the history. |
| `Rotation.FullRound` | BrowserStackDemo/Hooks/Hooks.cs:58-63 | From any cursor position, `n` calls return the catalog rotated to that position. As a multiset that is every profile exactly once. |
| `Rotation.FirstRoundInOrder` | BrowserStackDemo/Hooks/Hooks.cs:24 | From the initial cursor 0, the first `n` calls return the catalog itself, in catalog order. |
| `Rotation.ScheduleSuffix` | BrowserStackDemo/Hooks/Hooks.cs:58-63 | The calls after the first `skip` form a run from the cursor advanced by `skip` (mod `n`). |
| `Rotation.EveryWindowIsARound` | BrowserStackDemo/Hooks/Hooks.cs:58-63 | Starting at 0, any `n` consecutive calls return each profile exactly once. Call `k + n` returns the same profile as call `k`: the cursor wraps around. |
| `Rotation.RotationCursor.constructor` | BrowserStackDemo/Hooks/Hooks.cs:24 | The cursor starts at index 0 with nothing handed out; the catalog must be non-empty. |
| `Rotation.RotationCursor.Next` | BrowserStackDemo/Hooks/Hooks.cs:58-63 | Returns the profile at the pre-call index and sets the index to `(old + 1) mod n`. It keeps the index in `[0, n)` and keeps the history equal to the round-robin schedule from 0. |
| `Endpoint.EndpointUrl` | BrowserStackDemo/Hooks/Hooks.cs:65-66 | The endpoint always begins with `wss://cdp.browserstack.com/playwright?caps=`. The rest is exactly the escaped serialised profile. |
| `Endpoint.EndpointCarriesCaps` | BrowserStackDemo/Hooks/Hooks.cs:65-66 | The `caps` value read back from the endpoint is the escaped serialised profile (round trip). |
| `Endpoint.DistinctProfilesDistinctEndpoints` | BrowserStackDemo/Hooks/Hooks.cs:65-66 | If serialisation and escaping are injective, different profiles get different endpoints. |
| `Endpoint.CatalogEndpointsDistinct` | BrowserStackDemo/Hooks/Hooks.cs:65-66 | If serialisation and escaping are injective, the three catalog profiles lead to three different endpoints. |
| `Status.StatusPayload` | BrowserStackDemo/Hooks/Hooks.cs:172 | The payload is `browserstack_executor: {"action": "setSessionStatus", "arguments": {"status":"<status>", "reason": "<reason>"}}` with both inputs spliced in verbatim. It begins with the template's opening, carries `status` right after it, ends with `"}}`, and is exactly as long as the template plus the two inputs. |
| `Status.StatusPayloadRoundTrip` | BrowserStackDemo/Hooks/Hooks.cs:172 | For a JSON-safe status and reason (no double quote, no backslash, no control character), the payload reads back as exactly that status and reason. |
| `Status.StatusPayloadCollides` | BrowserStackDemo/Hooks/Hooks.cs:172 | No escaping: the pairs (`passed", "reason": "ok`, `late`) and (`passed`, `ok", "reason": "late`) produce the same payload. |
| `Status.ParseStatusPayload` | BrowserStackDemo/Hooks/Hooks.cs:172 | Whatever the reader accepts is exactly the payload of its JSON-safe status and reason. |
| `Lifecycle.Completed` | BrowserStackDemo/Hooks/Hooks.cs:69-79 | The calls of an awaited sequence that return normally are its longest fault-free prefix. The first call that throws ends the sequence. |
| `Lifecycle.CompletedAppend` | BrowserStackDemo/Hooks/Hooks.cs:93-104 | Awaited steps one after another, with no exception handling: a later group of calls runs only if every call of the earlier group returned. |
| `Lifecycle.OpenPlan` | BrowserStackDemo/Hooks/Hooks.cs:69-79 | The before-scenario hook makes six driver calls, in this order: create the driver, connect to the endpoint, open a 1920x1080 context, grant clipboard-read, clipboard-write and geolocation, open a page, go to `https://www.linklogistics.com/`. One of them connects to the given endpoint, and none of them closes anything. |
| `Lifecycle.TeardownPlan` | BrowserStackDemo/Hooks/Hooks.cs:93-104 | The after-scenario hook makes one driver call per non-null handle field among the context, the browser and the driver. `Lifecycle.TeardownPlanShape` states that each is a close and gives the order. |
| `Lifecycle.OpenPrefixHandles` | BrowserStackDemo/Hooks/Hooks.cs:69-78 | Applying the first `k` open calls one by one sets exactly: the driver after 1, the browser (with its endpoint) after 2, the 1920x1080 context after 3, the page after 5. |
| `Lifecycle.TeardownPlanShape` | BrowserStackDemo/Hooks/Hooks.cs:93-104 | Teardown closes the context, then the browser, then disposes the driver. Each call is made iff its field is non-null, in that strict order, and no call is made on the page. |
| `Lifecycle.TeardownStopsAtFault` | BrowserStackDemo/Hooks/Hooks.cs:91-105 | A close is made iff its field is non-null and neither it nor any earlier guarded close throws. A throwing close skips all later ones. |
| `Lifecycle.PartialOpenIsReleased` | BrowserStackDemo/Hooks/Hooks.cs:69-104 | After an open that failed part way, a fault-free teardown disposes the driver, closes the browser and closes the context exactly when the open created them. |
| `Lifecycle.ScenarioHooks.constructor` | BrowserStackDemo/Hooks/Hooks.cs:20-23 | A new hooks object has all four handle fields null and has made no driver call. |
| `Lifecycle.ScenarioHooks.InvokeBrowserBeforeScenario` | BrowserStackDemo/Hooks/Hooks.cs:56-79 | Advances the shared cursor by exactly one step, whether or not the open then fails. Opens the session on the endpoint of the profile at the pre-call index. The handle fields are the result of applying the completed calls one by one, each call setting the field it creates. |
| `Lifecycle.ScenarioHooks.OpenSession` | BrowserStackDemo/Hooks/Hooks.cs:68-79 | Issues create, connect, new context (1920x1080), grant (clipboard-read, clipboard-write, geolocation), new page and goto `https://www.linklogistics.com/`, in that order, up to the first throwing call. The log and the handle fields record exactly the calls that returned. The result is the page, or else the call that threw. |
| `Lifecycle.ScenarioHooks.AfterScenario` | BrowserStackDemo/Hooks/Hooks.cs:91-105 | Appends exactly the completed teardown calls to the log. Leaves all handle fields unchanged. Reports the close that threw, if any. |
| `Lifecycle.ScenarioHooks.MarkTestStatus` | BrowserStackDemo/Hooks/Hooks.cs:170-173 | Evaluates `_ => {}` with the status payload on the page and logs that call unless it throws. |
| `Lifecycle.OpenScenario` | BrowserStackDemo/Hooks/Hooks.cs:56-79 | On fresh hooks with no call throwing, the before-scenario hook advances the cursor one step. It connects to the endpoint of the profile at the pre-call index, issues all six open calls and sets all four handle fields. |
| `Lifecycle.RunScenario` | BrowserStackDemo/Hooks/Hooks.cs:56-104 | A whole scenario on fresh hooks with no call throwing takes the profile at the cursor, advances the cursor one step, and connects to that profile's endpoint. Its driver calls are the six open calls followed by closing the context, the browser and the driver. |
| `Lifecycle.FiveScenarios` | BrowserStackDemo/Hooks/Hooks.cs:58-79 | Five scenarios run through the hooks from a fresh cursor get Chrome, Edge, Chromium, Chrome, Edge, in that order. Each connects to the endpoint of its own profile. |

## Left out

- Status.StatusPayloadRoundTrip: the round trip is stated only for JSON-safe text. A backslash or a control character (a newline in a multi-line reason, say) in `status` or `reason` gives a payload that a JSON reader reads differently or rejects. The model's reader rejects it as well.
- Concurrency. The `lock` (lines 25, 58) and the fixture-level `Parallelizable` attribute (line 13) are not modelled. Each read-and-advance of the cursor is one atomic step, so the model covers sequential calls only.
- Configuration loading (lines 42, 49-54). This is file I/O plus JSON parsing. Its null check is unreachable, because the parser throws instead of returning null.
- The report directory: `reportPath` (line 29) and `DeleteAllPreviousReports` (lines 107-123). These are file-system deletion and a clock-based timestamp.
- The dependency-injection registrations of the page, browser and context (lines 82-84). This is a framework side effect with no logic in this file.
- Playwright itself. Each driver call is a `Call` value, with the arguments the hooks pass. Whether it throws is the `faults` parameter. The model keeps no state of the remote browser, the context or the page beyond the handle fields.
- `async`/`await`: awaited calls are sequential steps.
- Endpoint.EndpointUrl: JSON serialisation and URI escaping are parameters, not definitions. Only the prefix, and the injectivity that follows from injective parameters, are proved.
- Lifecycle.ScenarioHooks.MarkTestStatus: the source method is static and takes any page. The model issues the call on the hooks' own page, which must be non-null.
- Lifecycle.ScenarioHooks.InvokeBrowserBeforeScenario: the model returns a page marker, not the page object. The handle values record only how each handle was created.

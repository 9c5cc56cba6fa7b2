# Meraki MCP server: the two agentic workflows, modelled in Dafny

The Meraki MCP server exposes the Cisco Meraki dashboard API as tools. Most of
its tools format an endpoint path and forward one request. Two of them are
workflows: they chain several requests and decide things from the replies.

- **Connectivity diagnosis** (`_diagnose_connectivity_issue`) runs three steps:
  1. it reads the organisation's uplink statuses and reports the uplinks that are not active;
  2. when a network is named, it reports that network's alerts and its devices that are not online;
  3. when a device is named, it attaches that device's status and uplink replies.

  It then recommends an urgent check when a finding is high severity, followed
  by four generic recommendations.
- **Automated health check** (`_automated_health_check`) scans the first ten
  networks of the organisation. For each one it counts alerts, devices and
  offline devices. It then summarises the uplinks and recommends fixing inactive
  uplinks and networks with offline devices.

Both workflows go through one request helper, `_make_request`. The helper never
raises: every failure comes back as an object with an `"error"` member. The
workflows' only success test is therefore "is the reply a list?".

The model has six modules:

- `Upstream` (upstream.dfy) holds the JSON values the helper returns and the
  endpoints read. Object members keep their value whatever its JSON type, so a
  numeric or null `"id"` is still present. It also holds the platform itself, `Platform = Endpoint -> Reply`:
  the reply the helper gives for a GET of each endpoint. The platform is an
  input of every workflow, in place of network I/O.
- `Request` (request.dfy) is the helper's result shaping, as a pure function
  from the HTTP method and the client's outcome to the reply.
- `Selection` (selection.dfy) models the filtering list comprehensions as
  `Filter`. It proves that a filter keeps exactly the matching elements, in
  order. Its `MapSeq` helper writes the recommendation loop's result in closed form.
- `Decimal` (decimal.dfy) models Python's `str` on non-negative integers, and
  proves it can be read back.
- `Diagnosis` (diagnosis.dfy) models the diagnosis workflow. It has one method
  that builds the report step by step, like the source does. That method is
  proved equal to a step-by-step specification, and lemmas state what each
  step reports in terms of the replies.
- `HealthCheck` (health_check.dfy) models the health check. Its two loops are
  methods proved against specification functions. A missing network `"id"`
  raises `KeyError` in the source, and is modelled as an explicit error result.

## Model

| member | source | states |
|---|---|---|
| Request.MakeRequest | server.py:464-492 | A failure of any kind gives an object with an `"error"` member. A non-2xx status gives exactly `{"error": "HTTP <code>", "message": <body text>}`. A client exception gives `{"error": <its text>}`. A 2xx body that does not parse gives `{"error": <the decoder's text>}`, and an unknown method gives `{"error": <the unbound-variable text>}`, both without a `"message"`. A 2xx empty body gives `{}`. A 2xx non-empty body gives its parsed value. The reply is a list exactly when the call succeeded with a list body. |
| Request.HttpErrorIdentifiesStatus | server.py:486-490 | Two status errors with the same `"error"` text have the same status code. |
| Request.NotFoundReply | server.py:486-490 | A 404 answer to a GET reads `{"error": "HTTP 404", "message": <body>}`, as the server's 404 test expects. |
| Decimal.Show | server.py:488 | `str(n)` for a count or status code (also in the messages at server.py:602, 615, 627 and 723): the text is never empty. That it is a numeral and reads back as `n` is stated by ShowIsNumeral and ValueOfShow. |
| Decimal.ShowIsNumeral | server.py:488 | `str(n)` is all digits, with no leading zero unless it is "0". |
| Decimal.ValueOfShow | server.py:488 | Reading `str(n)` back as a decimal numeral gives `n`. |
| Decimal.ShowInjective | server.py:488 | Distinct numbers render differently. |
| Selection.Filter | server.py:597 | `[x for x in s if keep(x)]` (also at server.py:622, 699 and 710): the result is never longer than the input. Its content and order are stated by FilterEmpty, FilterSelectsInOrder and FilterAppend. |
| Selection.FilterEmpty | server.py:597-598 | A filtered list is empty exactly when no element matches. |
| Selection.FilterSelectsInOrder | server.py:597 | A filtered list is the input read at strictly increasing positions, and the positions are exactly those of the matching elements. |
| Selection.FilterAppend | server.py:719-724 | Filtering a concatenation concatenates the filtered parts. |
| Diagnosis.UplinkFindings | server.py:596-604 | Step 1 adds at most one finding, high severity and category uplink. It adds one exactly when the reply is a list holding an uplink whose status is not `"active"` (a missing status counts). The finding lists those filtered uplinks and its message counts them. |
| Diagnosis.AlertFindings | server.py:611-617 | The alerts part adds at most one medium/alerts finding. It adds one exactly when the alerts reply is a non-empty list, and the finding carries all the alerts with their count. |
| Diagnosis.DeviceStatusFindings | server.py:621-629 | The device part adds at most one high/device_status finding. It adds one exactly when the reply is a list holding a device that is not `"online"` (a missing status counts). The finding lists exactly those devices and counts them. |
| Diagnosis.DeviceDetailsFindings | server.py:638-643 | Step 3 adds exactly one info/device_details finding, with no message, carrying both device replies whatever they are. |
| Diagnosis.AnyHigh | server.py:646 | `any(...)` holds exactly when some finding has high severity. |
| Diagnosis.FindingOf | server.py:593-643 | (helper) a lookup by category: it returns a finding exactly when some finding has that category, and then one of that category taken from the list. |
| Diagnosis.FindingOfIsFirst | server.py:593-643 | The lookup returns the first finding of its category. |
| Diagnosis.DiagnoseConnectivityIssue | server.py:577-658 | The report keeps the issue description. `steps_performed` starts with the uplink step and has 1 + [network given] + [device given] entries with the network's and the device's texts. The findings are the steps' parts in step order. The recommendations end with the four generic ones in order. There are 5 of them exactly when some finding is high, and then the first is the urgent one. |
| Diagnosis.FindingOfStepPart | server.py:593-643 | A step's part contains its own category's finding and no other. |
| Diagnosis.FindingOfAppend | server.py:593-643 | Looking a category up in a concatenation searches the first part first. |
| Diagnosis.FindingOfRun | server.py:593-643 | The finding of each category in a run is exactly the finding of the step producing it, or none. |
| Diagnosis.UplinkFindingOfRun | server.py:593-604 | A run has an uplink finding exactly when the uplink reply lists a non-active uplink, and it is the high finding listing exactly the filtered uplinks. |
| Diagnosis.AlertsFindingOfRun | server.py:607-617 | A run has an alerts finding exactly when a network id is given and its alerts reply is a non-empty list. The finding then carries those alerts. |
| Diagnosis.DeviceStatusFindingOfRun | server.py:607-629 | A run has a device-status finding exactly when a network id is given and one of its devices is not online. The finding then lists exactly those devices. |
| Diagnosis.DeviceDetailsFindingOfRun | server.py:632-643 | A run has a device-details finding exactly when a serial is given, even when both device calls failed. The finding then carries both replies. |
| Diagnosis.StepOrderAppend | server.py:593-643 | Appending a later step's part keeps the findings in step order. |
| Diagnosis.UplinkStepInOrder | server.py:593-604 | Step 1 contributes at most one finding, and it belongs before every later step. |
| Diagnosis.NetworkStepInOrder | server.py:593-629 | Steps 1 and 2 together give at most three findings. They are in step order and all come before step 3. |
| Diagnosis.DeviceStepInOrder | server.py:632-643 | Step 3's finding after those of steps 1 and 2 keeps the order, with at most four findings. |
| Diagnosis.FindingsInStepOrder | server.py:593-643 | The findings of a run come in the order uplink, alerts, device_status, device_details. There is at most one per category and at most four in all, each with its step's severity. |
| Diagnosis.HighFindingOfRun | server.py:645-649 | The urgent recommendation is due exactly when the run has an uplink finding or a device-status finding. |
| Diagnosis.FailedCallsAddNoFinding | server.py:483-492 | A GET that failed in the helper never makes the uplink, alerts or device-status step report. |
| HealthCheck.ScanNetwork | server.py:681-700 | A network's entry has its id and its name (or None), whatever their JSON type. The replies are read at the endpoints named by the id's text. Its alert count and device count are the reply lengths when the reply is a list, otherwise 0. Offline devices are the devices whose status is not `"online"`, never more than the device count. The offline count is 0 exactly when no listed device is offline. |
| HealthCheck.ScanNetworks | server.py:680-702 | The loop fails exactly when one of the first min(10, n) networks has no id, and it reports the first such position. Otherwise it yields min(10, n) entries, entry k being the scan of network k. |
| HealthCheck.Recommend | server.py:713-724 | The uplink item comes first exactly when the inactive-uplink count is positive. It is followed by one item per entry with offline devices, in entry order. |
| HealthCheck.OfflineStep | server.py:719-724 | One more entry adds its item exactly when it has offline devices. |
| HealthCheck.OfflineRecommendationsInOrder | server.py:719-724 | The per-network items name, at strictly increasing positions, exactly the entries with offline devices. |
| HealthCheck.AutomatedHealthCheck | server.py:660-726 | The run fails exactly when a scanned network has no id, at the first one. Otherwise the report carries the organisation id and an empty `device_health`. `total_networks` is the length of the whole list, present only when the reply is a list. The entries are the scans of the first min(10, n) networks in order, and none when the reply is not a list. The uplink totals are present only for a list reply, with inactive ≤ total. Recommendations are empty unless requested, and then follow Recommend. |

## Left out

- The tool list and input schemas, the `handle_call_tool` dispatch and its JSON text wrapping: these are protocol plumbing.
- Loading the API key from the environment, building the HTTP client, and the stdio `run`/`main`: these are process wiring.
- The thin pass-through operations. Each only formats an endpoint path and forwards one request. The endpoint paths are abstracted as `Upstream.Endpoint` values.
- The `timestamp` fields: they come from the clock.
- asyncio scheduling: the workflows await their calls strictly in sequence, so each call's reply is an input.
- agentic_demo.py and test_workflows.py are console scripts. They are not part of this model.
- Request.MakeRequest: the exception texts of the HTTP client (`str(e)` for timeouts, refused connections and JSON decoding errors) are parameters of the outcome, not computed. The unknown-method case uses the `UnboundLocalError` wording of Python 3.11 and later. The status check is `raise_for_status` as the HTTP client defines it: any status outside 200..299 raises.
- Upstream.Reply: every list reply is a list of JSON objects. A list element that is not an object cannot be represented in any list reply, and the effect differs by reply:
  - In the uplink and device lists, `u.get(...)` and `d.get(...)` would raise on such an element. That exception is not modelled.
  - The alerts reply and the two device replies of step 3 are only counted or passed on. A list such as `[1, 2]` is a normal input there and does not raise: the source reports "Found 2 active alerts" and an `alert_count` of 2, and step 3 carries the list unchanged. The model has no input for such replies. A top-level array is always a `List`, and `Scalar(Composite(...))` does not stand for one: `Composite` occurs only as a member value.
  - A top-level scalar reply (`Scalar`) is a bare string, number, boolean or null, and keeps that value, so it reaches the device_details finding with its content.
- Upstream.Value: only strings are looked into. A number keeps its literal text, and an array or object keeps its JSON text. `Upstream.Text` renders these as that text, where Python would format a float, a list or a dict in its own way. This only affects an id or name of one of those types used in a path or a recommendation text.
- Upstream.Platform: the platform is a function of the endpoint. Two scanned networks whose ids have the same text therefore get the same replies, whereas the source sends two requests.
- The workflows see the request helper only through its replies. `Diagnosis.FailedCallsAddNoFinding` connects the two: a failed call's reply is never a list.
- HealthCheck.AutomatedHealthCheck: `include_recommendations` is a boolean. A call without the argument corresponds to `includeRecommendations == true`, the source's default. The source tests any JSON value for truthiness; other values are not modelled.
- The code has no rate limiting, retries with backoff, numeric health score or severity sorting of findings, and neither does the model.

/** The connectivity diagnosis workflow: check the organisation's uplinks,
    then (when a network is named) its alerts and devices, then (when a device
    is named) that device, collecting findings and recommendations. */
module Diagnosis {
  import opened Upstream
  import opened Request
  import opened Selection
  import Decimal

  datatype Severity = High | Medium | Info

  datatype Category = Uplink | Alerts | DeviceStatus | DeviceDetails

  /** What a finding carries besides its severity, category and message. */
  datatype Evidence =
    | DeviceList(devices: seq<Record>)
    | AlertList(alerts: seq<Record>)
    | DeviceReplies(deviceStatus: Reply, uplinkStatus: Reply)

  /** One finding; the device-details finding has no message. */
  datatype Finding = Finding(severity: Severity, category: Category, message: Option<string>, evidence: Evidence)

  /** The diagnosis dictionary, without its timestamp. */
  datatype Report = Report(issueDescription: string, steps: seq<string>,
                           findings: seq<Finding>, recommendations: seq<string>)

  const UplinkStep: string := "Checking organization uplink status"

  function NetworkStep(networkId: string): string
  {
    "Checking network health: " + networkId
  }

  function DeviceStep(serial: string): string
  {
    "Checking device: " + serial
  }

  function UplinkMessage(n: nat): string
  {
    "Found " + Decimal.Show(n) + " devices with inactive uplinks"
  }

  function AlertsMessage(n: nat): string
  {
    "Found " + Decimal.Show(n) + " active alerts"
  }

  function OfflineMessage(n: nat): string
  {
    "Found " + Decimal.Show(n) + " offline devices"
  }

  const ImmediateAction: string :=
    "Immediate action required: Check devices with inactive uplinks or offline status"

  const GenericRecommendations: seq<string> := [
    "Review device logs for error patterns",
    "Verify physical connections and power",
    "Check for recent configuration changes",
    "Consider firmware updates if available"
  ]

  /** The step that produces each category, in the order the steps run. */
  function Rank(c: Category): nat
  {
    match c
    case Uplink => 0
    case Alerts => 1
    case DeviceStatus => 2
    case DeviceDetails => 3
  }

  /** The severity each step gives its finding. */
  function SeverityOf(c: Category): Severity
  {
    match c
    case Uplink => High
    case Alerts => Medium
    case DeviceStatus => High
    case DeviceDetails => Info
  }

  /** What one step contributes: no finding, or one finding of category `c`
      with that category's severity. */
  ghost predicate StepPart(p: seq<Finding>, c: Category)
  {
    |p| <= 1 && forall k :: 0 <= k < |p| ==> p[k].category == c && p[k].severity == SeverityOf(c)
  }

  /** Findings in strictly increasing step order, each with its step's severity. */
  ghost predicate InStepOrder(fs: seq<Finding>)
  {
    && (forall k, l :: 0 <= k < l < |fs| ==> Rank(fs[k].category) < Rank(fs[l].category))
    && (forall k :: 0 <= k < |fs| ==> fs[k].severity == SeverityOf(fs[k].category))
  }

  /** The first finding of category `c`, if any. */
  function FindingOf(fs: seq<Finding>, c: Category): (r: Option<Finding>)
    ensures r.Some? <==> exists k :: 0 <= k < |fs| && fs[k].category == c
    ensures r.Some? ==> r.value.category == c && r.value in fs
  {
    if fs == [] then None
    else if fs[0].category == c then Some(fs[0])
    else FindingOf(fs[1..], c)
  }

  /** The lookup finds the first finding of its category. */
  lemma {:induction false} FindingOfIsFirst(fs: seq<Finding>, c: Category, k: nat)
    requires k < |fs| && fs[k].category == c
    requires forall j :: 0 <= j < k ==> fs[j].category != c
    ensures FindingOf(fs, c) == Some(fs[k])
  {
    if k > 0 {
      assert fs[0].category != c;
      FindingOfIsFirst(fs[1..], c, k - 1);
    }
  }

  /** `any(f["severity"] == "high" for f in findings)`. */
  function AnyHigh(fs: seq<Finding>): (b: bool)
    ensures b <==> exists k :: 0 <= k < |fs| && fs[k].severity == High
  {
    |fs| > 0 && (fs[0].severity == High || AnyHigh(fs[1..]))
  }

  /** Step 1's finding: the uplinks that are not active, if the reply is a
      list and there is at least one. */
  function UplinkFindings(uplinks: Reply): (r: seq<Finding>)
    ensures StepPart(r, Uplink)
    ensures r != [] <==> uplinks.List? && exists i :: 0 <= i < |uplinks.items| && NotActive(uplinks.items[i])
    ensures r != [] ==> && r[0].evidence == DeviceList(Filter(uplinks.items, NotActive))
                        && r[0].message == Some(UplinkMessage(|Filter(uplinks.items, NotActive)|))
  {
    if !uplinks.List? then []
    else
      var down := Filter(uplinks.items, NotActive);
      FilterEmpty(uplinks.items, NotActive);
      if down == [] then [] else [Finding(High, Uplink, Some(UplinkMessage(|down|)), DeviceList(down))]
  }

  /** Step 2's alert finding: all the alerts, if the reply is a non-empty list. */
  function AlertFindings(alerts: Reply): (r: seq<Finding>)
    ensures StepPart(r, Alerts)
    ensures r != [] <==> alerts.List? && |alerts.items| > 0
    ensures r != [] ==> && r[0].evidence == AlertList(alerts.items)
                        && r[0].message == Some(AlertsMessage(|alerts.items|))
  {
    if alerts.List? && |alerts.items| > 0 then
      [Finding(Medium, Alerts, Some(AlertsMessage(|alerts.items|)), AlertList(alerts.items))]
    else []
  }

  /** Step 2's device finding: the devices that are not online, if the reply
      is a list and there is at least one. */
  function DeviceStatusFindings(devices: Reply): (r: seq<Finding>)
    ensures StepPart(r, DeviceStatus)
    ensures r != [] <==> devices.List? && exists i :: 0 <= i < |devices.items| && NotOnline(devices.items[i])
    ensures r != [] ==> && r[0].evidence == DeviceList(Filter(devices.items, NotOnline))
                        && r[0].message == Some(OfflineMessage(|Filter(devices.items, NotOnline)|))
  {
    if !devices.List? then []
    else
      var offline := Filter(devices.items, NotOnline);
      FilterEmpty(devices.items, NotOnline);
      if offline == [] then [] else [Finding(High, DeviceStatus, Some(OfflineMessage(|offline|)), DeviceList(offline))]
  }

  /** Step 3's finding: both device replies, unconditionally. */
  function DeviceDetailsFindings(status: Reply, uplink: Reply): (r: seq<Finding>)
    ensures StepPart(r, DeviceDetails) && |r| == 1
    ensures r[0].message == None && r[0].evidence == DeviceReplies(status, uplink)
  {
    [Finding(Info, DeviceDetails, None, DeviceReplies(status, uplink))]
  }

  /** The findings of a run, step by step. */
  function ExpectedFindings(up: Platform, organizationId: string,
                            networkId: Option<string>, deviceSerial: Option<string>): seq<Finding>
  {
    var afterUplinks := UplinkFindings(up(OrganizationUplinkStatuses(organizationId)));
    var afterNetwork :=
      if Given(networkId)
      then afterUplinks + AlertFindings(up(NetworkHealthAlerts(networkId.value)))
                        + DeviceStatusFindings(up(NetworkDevices(networkId.value)))
      else afterUplinks;
    if Given(deviceSerial)
    then afterNetwork + DeviceDetailsFindings(up(DeviceStatuses(deviceSerial.value)),
                                              up(DeviceUplink(deviceSerial.value)))
    else afterNetwork
  }

  method DiagnoseConnectivityIssue(up: Platform, organizationId: string, issueDescription: string,
                                   networkId: Option<string>, deviceSerial: Option<string>)
    returns (d: Report)
    ensures d.issueDescription == issueDescription
    // one step for the uplinks, one more for each target given, in that order
    ensures |d.steps| == 1 + (if Given(networkId) then 1 else 0) + (if Given(deviceSerial) then 1 else 0)
    ensures d.steps[0] == UplinkStep
    ensures Given(networkId) ==> d.steps[1] == NetworkStep(networkId.value)
    ensures Given(deviceSerial) ==> d.steps[|d.steps| - 1] == DeviceStep(deviceSerial.value)
    ensures d.findings == ExpectedFindings(up, organizationId, networkId, deviceSerial)
    // the four generic recommendations last, preceded by the urgent one exactly when a finding is high
    ensures |d.recommendations| == 4 || |d.recommendations| == 5
    ensures d.recommendations[|d.recommendations| - 4..] == GenericRecommendations
    ensures |d.recommendations| == 5 <==> exists k :: 0 <= k < |d.findings| && d.findings[k].severity == High
    ensures |d.recommendations| == 5 ==> d.recommendations[0] == ImmediateAction
  {
    var steps: seq<string> := [];
    var findings: seq<Finding> := [];
    var recommendations: seq<string> := [];

    // organisation-wide uplinks
    steps := steps + [UplinkStep];
    var uplinks := up(OrganizationUplinkStatuses(organizationId));
    findings := findings + UplinkFindings(uplinks);
    assert findings == UplinkFindings(uplinks);

    // the named network's alerts and devices
    if Given(networkId) {
      var id := networkId.value;
      steps := steps + [NetworkStep(id)];
      var alerts := up(NetworkHealthAlerts(id));
      findings := findings + AlertFindings(alerts);
      var devices := up(NetworkDevices(id));
      findings := findings + DeviceStatusFindings(devices);
    }

    // the named device: one finding with both replies, whatever they are
    if Given(deviceSerial) {
      var serial := deviceSerial.value;
      steps := steps + [DeviceStep(serial)];
      var status := up(DeviceStatuses(serial));
      var uplink := up(DeviceUplink(serial));
      findings := findings + DeviceDetailsFindings(status, uplink);
    }

    if AnyHigh(findings) {
      recommendations := recommendations + [ImmediateAction];
    }
    recommendations := recommendations + GenericRecommendations;

    d := Report(issueDescription, steps, findings, recommendations);
  }

  /** A step's part holds its category's finding and no other. */
  lemma FindingOfStepPart(p: seq<Finding>, c: Category, c': Category)
    requires StepPart(p, c)
    ensures FindingOf(p, c') == if p != [] && c == c' then Some(p[0]) else None
  {
    if p != [] {
      assert p[1..] == [];
    }
  }

  /** Looking a category up in a concatenation looks in the first part first. */
  lemma {:induction false} FindingOfAppend(a: seq<Finding>, b: seq<Finding>, c: Category)
    ensures FindingOf(a + b, c) == if FindingOf(a, c).Some? then FindingOf(a, c) else FindingOf(b, c)
  {
    if a != [] {
      assert (a + b)[1..] == a[1..] + b;
      FindingOfAppend(a[1..], b, c);
    } else {
      assert a + b == b;
    }
  }

  /** The finding of category `c` in a run is the finding of the step that produces `c`. */
  lemma FindingOfRun(up: Platform, organizationId: string, networkId: Option<string>,
                     deviceSerial: Option<string>, c: Category)
    ensures var pU := UplinkFindings(up(OrganizationUplinkStatuses(organizationId)));
            var pA := if Given(networkId) then AlertFindings(up(NetworkHealthAlerts(networkId.value))) else [];
            var pS := if Given(networkId) then DeviceStatusFindings(up(NetworkDevices(networkId.value))) else [];
            var pD := if Given(deviceSerial)
                      then DeviceDetailsFindings(up(DeviceStatuses(deviceSerial.value)),
                                                 up(DeviceUplink(deviceSerial.value)))
                      else [];
            var part := match c
                        case Uplink => pU
                        case Alerts => pA
                        case DeviceStatus => pS
                        case DeviceDetails => pD;
            FindingOf(ExpectedFindings(up, organizationId, networkId, deviceSerial), c)
              == if part != [] then Some(part[0]) else None
  {
    var pU := UplinkFindings(up(OrganizationUplinkStatuses(organizationId)));
    var pA := if Given(networkId) then AlertFindings(up(NetworkHealthAlerts(networkId.value))) else [];
    var pS := if Given(networkId) then DeviceStatusFindings(up(NetworkDevices(networkId.value))) else [];
    var pD := if Given(deviceSerial)
              then DeviceDetailsFindings(up(DeviceStatuses(deviceSerial.value)),
                                         up(DeviceUplink(deviceSerial.value)))
              else [];
    var run := ExpectedFindings(up, organizationId, networkId, deviceSerial);
    FindingOfStepPart(pA, Alerts, c);
    FindingOfStepPart(pS, DeviceStatus, c);
    FindingOfStepPart(pD, DeviceDetails, c);
    var afterNetwork := if Given(networkId) then pU + pA + pS else pU;
    if Given(networkId) {
      FindingOfAppend(pU + pA, pS, c);
      FindingOfAppend(pU, pA, c);
    }
    if Given(deviceSerial) {
      FindingOfAppend(afterNetwork, pD, c);
    }
    FindingOfStepPart(pU, Uplink, c);
  }

  /** Step 1 reports exactly when the uplink reply lists an uplink that is
      not active, and its finding lists exactly those uplinks. */
  lemma UplinkFindingOfRun(up: Platform, organizationId: string, networkId: Option<string>,
                           deviceSerial: Option<string>)
    ensures var u := up(OrganizationUplinkStatuses(organizationId));
            var f := FindingOf(ExpectedFindings(up, organizationId, networkId, deviceSerial), Uplink);
            && (f.Some? <==> u.List? && exists i :: 0 <= i < |u.items| && NotActive(u.items[i]))
            && (f.Some? ==>
                  var down := Filter(u.items, NotActive);
                  f.value == Finding(High, Uplink, Some(UplinkMessage(|down|)), DeviceList(down)))
  {
    FindingOfRun(up, organizationId, networkId, deviceSerial, Uplink);
  }

  /** The alerts finding appears exactly when a network is given and its
      alerts reply is a non-empty list, and it carries all the alerts. */
  lemma AlertsFindingOfRun(up: Platform, organizationId: string, networkId: Option<string>,
                           deviceSerial: Option<string>)
    ensures var f := FindingOf(ExpectedFindings(up, organizationId, networkId, deviceSerial), Alerts);
            && (f.Some? <==> Given(networkId) && var a := up(NetworkHealthAlerts(networkId.value));
                                                 a.List? && |a.items| > 0)
            && (f.Some? ==>
                  var a := up(NetworkHealthAlerts(networkId.value));
                  f.value == Finding(Medium, Alerts, Some(AlertsMessage(|a.items|)), AlertList(a.items)))
  {
    FindingOfRun(up, organizationId, networkId, deviceSerial, Alerts);
  }

  /** The device-status finding appears exactly when a network is given and
      one of its devices is not online (a device without a status counts),
      and it lists exactly those devices. */
  lemma DeviceStatusFindingOfRun(up: Platform, organizationId: string, networkId: Option<string>,
                                 deviceSerial: Option<string>)
    ensures var f := FindingOf(ExpectedFindings(up, organizationId, networkId, deviceSerial), DeviceStatus);
            && (f.Some? <==> Given(networkId) && var v := up(NetworkDevices(networkId.value));
                                                 v.List? && exists i :: 0 <= i < |v.items| && NotOnline(v.items[i]))
            && (f.Some? ==>
                  var offline := Filter(up(NetworkDevices(networkId.value)).items, NotOnline);
                  f.value == Finding(High, DeviceStatus, Some(OfflineMessage(|offline|)), DeviceList(offline)))
  {
    FindingOfRun(up, organizationId, networkId, deviceSerial, DeviceStatus);
  }

  /** The device-details finding appears exactly when a device is given,
      whatever its two replies are, even two error objects. */
  lemma DeviceDetailsFindingOfRun(up: Platform, organizationId: string, networkId: Option<string>,
                                  deviceSerial: Option<string>)
    ensures var f := FindingOf(ExpectedFindings(up, organizationId, networkId, deviceSerial), DeviceDetails);
            && (f.Some? <==> Given(deviceSerial))
            && (f.Some? ==>
                  f.value == Finding(Info, DeviceDetails, None,
                                     DeviceReplies(up(DeviceStatuses(deviceSerial.value)),
                                                   up(DeviceUplink(deviceSerial.value)))))
  {
    FindingOfRun(up, organizationId, networkId, deviceSerial, DeviceDetails);
  }

  /** Appending a later step's part keeps findings in step order. */
  lemma StepOrderAppend(fs: seq<Finding>, p: seq<Finding>, c: Category)
    requires InStepOrder(fs) && StepPart(p, c)
    requires forall k :: 0 <= k < |fs| ==> Rank(fs[k].category) < Rank(c)
    ensures InStepOrder(fs + p)
  {
  }

  /** Findings that all come from steps before the step producing `c`. */
  ghost predicate Before(fs: seq<Finding>, c: Category)
  {
    forall k :: 0 <= k < |fs| ==> Rank(fs[k].category) < Rank(c)
  }

  /** Step 1's part alone: in order, and before step 2. */
  lemma UplinkStepInOrder(pU: seq<Finding>)
    requires StepPart(pU, Uplink)
    ensures InStepOrder(pU) && |pU| <= 1 && Before(pU, Alerts)
  {
  }

  /** Steps 1 and 2: in order, at most three findings, all before step 3. */
  lemma NetworkStepInOrder(pU: seq<Finding>, pA: seq<Finding>, pS: seq<Finding>)
    requires StepPart(pU, Uplink) && StepPart(pA, Alerts) && StepPart(pS, DeviceStatus)
    ensures InStepOrder(pU + pA + pS) && |pU + pA + pS| <= 3 && Before(pU + pA + pS, DeviceDetails)
  {
    UplinkStepInOrder(pU);
    StepOrderAppend(pU, pA, Alerts);
    StepOrderAppend(pU + pA, pS, DeviceStatus);
  }

  /** Step 3 after steps 1 and 2: still in order, at most four findings. */
  lemma DeviceStepInOrder(fs: seq<Finding>, pD: seq<Finding>)
    requires InStepOrder(fs) && |fs| <= 3 && Before(fs, DeviceDetails) && StepPart(pD, DeviceDetails)
    ensures InStepOrder(fs + pD) && |fs + pD| <= 4
  {
    StepOrderAppend(fs, pD, DeviceDetails);
  }

  /** The findings of a run come in step order, at most one per category,
      each with its step's severity. */
  lemma FindingsInStepOrder(up: Platform, organizationId: string, networkId: Option<string>,
                            deviceSerial: Option<string>)
    ensures InStepOrder(ExpectedFindings(up, organizationId, networkId, deviceSerial))
    ensures |ExpectedFindings(up, organizationId, networkId, deviceSerial)| <= 4
  {
    var pU := UplinkFindings(up(OrganizationUplinkStatuses(organizationId)));
    var afterNetwork := pU;
    UplinkStepInOrder(pU);
    if Given(networkId) {
      var pA := AlertFindings(up(NetworkHealthAlerts(networkId.value)));
      var pS := DeviceStatusFindings(up(NetworkDevices(networkId.value)));
      NetworkStepInOrder(pU, pA, pS);
      afterNetwork := pU + pA + pS;
    }
    if Given(deviceSerial) {
      DeviceStepInOrder(afterNetwork, DeviceDetailsFindings(up(DeviceStatuses(deviceSerial.value)),
                                                            up(DeviceUplink(deviceSerial.value))));
    }
  }

  /** The urgent recommendation is due exactly when the uplink step or the
      device-status step reported. */
  lemma HighFindingOfRun(up: Platform, organizationId: string, networkId: Option<string>,
                         deviceSerial: Option<string>)
    ensures var fs := ExpectedFindings(up, organizationId, networkId, deviceSerial);
            AnyHigh(fs) <==> FindingOf(fs, Uplink).Some? || FindingOf(fs, DeviceStatus).Some?
  {
    FindingsInStepOrder(up, organizationId, networkId, deviceSerial);
  }

  /** A call that failed in the request helper never yields a finding:
      its reply is an error object, not a list. */
  lemma FailedCallsAddNoFinding(o: Outcome)
    requires Fails(Get, o)
    ensures UplinkFindings(MakeRequest(Get, o)) == []
    ensures AlertFindings(MakeRequest(Get, o)) == []
    ensures DeviceStatusFindings(MakeRequest(Get, o)) == []
  {
  }
}

/** The automated health check workflow: scan the first ten networks of an
    organisation (alerts, devices, offline devices), summarise its uplinks,
    and turn the result into recommendations. */
module HealthCheck {
  import opened Upstream
  import opened Selection
  import Decimal

  /** At most this many networks are scanned (`networks[:10]`). */
  const NetworkLimit: nat := 10

  /** One entry of `network_health`. */
  datatype NetworkHealth = NetworkHealth(networkId: Value, networkName: Option<Value>,
                                         alertCount: nat, deviceCount: nat, offlineDevices: nat)

  /** The `summary` dictionary; an absent key is None. */
  datatype Summary = Summary(totalNetworks: Option<nat>, totalUplinks: Option<nat>, inactiveUplinks: Option<nat>)

  /** The health report dictionary, without its timestamp. */
  datatype Report = Report(organizationId: string, summary: Summary, networkHealth: seq<NetworkHealth>,
                           deviceHealth: seq<Record>, recommendations: seq<string>)

  /** The run stops with `KeyError('id')` at the first scanned network that has no id. */
  datatype Failure = MissingNetworkId(position: nat)

  const UplinkRecommendation: string := "Address inactive uplink connections immediately"

  function Min(a: nat, b: nat): nat
  {
    if a <= b then a else b
  }

  /** How a network name reads inside an f-string: a missing name is `None`. */
  function NameText(name: Option<Value>): string
  {
    match name
    case Some(v) => Text(v)
    case None => "None"
  }

  function OfflineRecommendation(h: NetworkHealth): string
  {
    "Network '" + NameText(h.networkName) + "' has " + Decimal.Show(h.offlineDevices) + " offline devices"
  }

  predicate HasOffline(h: NetworkHealth)
  {
    h.offlineDevices > 0
  }

  /** `summary.get("inactive_uplinks", 0)`. */
  function InactiveUplinks(s: Summary): nat
  {
    match s.inactiveUplinks
    case Some(n) => n
    case None => 0
  }

  /** The health entry of a network whose id is `network["id"]`. */
  function ScanNetwork(up: Platform, network: Record): (h: NetworkHealth)
    requires "id" in network.fields
    ensures h.networkId == network.fields["id"] && h.networkName == network.Get("name")
    // counts are the reply lengths when the reply is a list, otherwise 0
    ensures h.alertCount == ListLength(up(NetworkHealthAlerts(Text(h.networkId))))
    ensures h.deviceCount == ListLength(up(NetworkDevices(Text(h.networkId))))
    // the offline devices are those whose status is not "online", and never more than the devices
    ensures var devices := up(NetworkDevices(Text(h.networkId)));
            h.offlineDevices == (if devices.List? then |Filter(devices.items, NotOnline)| else 0)
    ensures h.offlineDevices <= h.deviceCount
    ensures h.offlineDevices == 0 <==> var devices := up(NetworkDevices(Text(h.networkId)));
                                       !devices.List? || forall i :: 0 <= i < |devices.items| ==> !NotOnline(devices.items[i])
  {
    var id := network.fields["id"];
    var alerts := up(NetworkHealthAlerts(Text(id)));
    var devices := up(NetworkDevices(Text(id)));
    var offline := if devices.List? then |Filter(devices.items, NotOnline)| else 0;
    assert devices.List? ==> (offline == 0 <==> forall i :: 0 <= i < |devices.items| ==> !NotOnline(devices.items[i])) by {
      if devices.List? { FilterEmpty(devices.items, NotOnline); }
    }
    NetworkHealth(id, network.Get("name"), ListLength(alerts), ListLength(devices), offline)
  }

  /** The loop over `networks[:10]`: scan each network in order, stopping at
      the first one without an id. */
  method ScanNetworks(up: Platform, networks: seq<Record>) returns (result: Result<seq<NetworkHealth>, Failure>)
    ensures result.Err? <==> exists i :: 0 <= i < Min(NetworkLimit, |networks|) && "id" !in networks[i].fields
    ensures result.Err? ==>
              var p := result.error.position;
              && p < Min(NetworkLimit, |networks|) && "id" !in networks[p].fields
              && forall j :: 0 <= j < p ==> "id" in networks[j].fields
    ensures result.Ok? ==>
              && |result.value| == Min(NetworkLimit, |networks|)
              && forall k :: 0 <= k < |result.value| ==>
                   "id" in networks[k].fields && result.value[k] == ScanNetwork(up, networks[k])
  {
    var health: seq<NetworkHealth> := [];
    var scanned := networks[..Min(NetworkLimit, |networks|)];
    var i := 0;
    while i < |scanned|
      invariant 0 <= i <= |scanned|
      invariant |health| == i
      invariant forall k :: 0 <= k < i ==> "id" in scanned[k].fields && health[k] == ScanNetwork(up, scanned[k])
    {
      var network := scanned[i];
      if "id" !in network.fields {
        return Err(MissingNetworkId(i));
      }
      var networkId := network.fields["id"];
      var alerts := up(NetworkHealthAlerts(Text(networkId)));
      var devices := up(NetworkDevices(Text(networkId)));
      var entry := NetworkHealth(networkId, network.Get("name"), ListLength(alerts), ListLength(devices), 0);
      if devices.List? {
        entry := entry.(offlineDevices := |Filter(devices.items, NotOnline)|);
      }
      health := health + [entry];
      i := i + 1;
    }
    return Ok(health);
  }

  /** The recommendation loop: the uplink item when an uplink is inactive,
      then one item per scanned network with offline devices, in scan order. */
  method Recommend(summary: Summary, health: seq<NetworkHealth>) returns (recommendations: seq<string>)
    ensures recommendations
              == (if InactiveUplinks(summary) > 0 then [UplinkRecommendation] else [])
                 + MapSeq(Filter(health, HasOffline), OfflineRecommendation)
  {
    recommendations := [];
    if InactiveUplinks(summary) > 0 {
      recommendations := recommendations + [UplinkRecommendation];
    }
    ghost var head := recommendations;
    var j := 0;
    while j < |health|
      invariant 0 <= j <= |health|
      invariant recommendations == head + MapSeq(Filter(health[..j], HasOffline), OfflineRecommendation)
    {
      ghost var done := MapSeq(Filter(health[..j], HasOffline), OfflineRecommendation);
      OfflineStep(health, j);
      if health[j].offlineDevices > 0 {
        recommendations := recommendations + [OfflineRecommendation(health[j])];
        assert recommendations == head + (done + [OfflineRecommendation(health[j])]);
      } else {
        assert done + [] == done;
      }
      j := j + 1;
    }
    assert health[..|health|] == health;
  }

  /** One more scanned network adds its item, if it has offline devices. */
  lemma OfflineStep(health: seq<NetworkHealth>, j: nat)
    requires j < |health|
    ensures MapSeq(Filter(health[..j + 1], HasOffline), OfflineRecommendation)
            == MapSeq(Filter(health[..j], HasOffline), OfflineRecommendation)
               + (if HasOffline(health[j]) then [OfflineRecommendation(health[j])] else [])
  {
    assert health[..j + 1] == health[..j] + [health[j]];
    FilterAppend(health[..j], [health[j]], HasOffline);
    MapAppend(Filter(health[..j], HasOffline), Filter([health[j]], HasOffline), OfflineRecommendation);
  }

  method AutomatedHealthCheck(up: Platform, organizationId: string, includeRecommendations: bool)
    returns (result: Result<Report, Failure>)
    // the run fails exactly when a scanned network has no id, at the first such network
    ensures var nets := up(OrganizationNetworks(organizationId));
            result.Err? <==> nets.List? && exists i :: 0 <= i < Min(NetworkLimit, |nets.items|) && "id" !in nets.items[i].fields
    ensures result.Err? ==>
              var nets := up(OrganizationNetworks(organizationId));
              var p := result.error.position;
              && nets.List? && p < Min(NetworkLimit, |nets.items|) && "id" !in nets.items[p].fields
              && forall j :: 0 <= j < p ==> "id" in nets.items[j].fields
    ensures result.Ok? ==>
              var rep := result.value;
              var nets := up(OrganizationNetworks(organizationId));
              && rep.organizationId == organizationId
              && rep.deviceHealth == []
              // total_networks counts the whole list; at most ten are scanned, in order
              && rep.summary.totalNetworks == (if nets.List? then Some(|nets.items|) else None)
              && |rep.networkHealth| == (if nets.List? then Min(NetworkLimit, |nets.items|) else 0)
              && (forall k :: 0 <= k < |rep.networkHealth| ==>
                    && nets.List? && k < |nets.items| && "id" in nets.items[k].fields
                    && rep.networkHealth[k] == ScanNetwork(up, nets.items[k]))
    ensures result.Ok? ==>
              var s := result.value.summary;
              var uplinks := up(OrganizationUplinkStatuses(organizationId));
              && s.totalUplinks == (if uplinks.List? then Some(|uplinks.items|) else None)
              && s.inactiveUplinks == (if uplinks.List? then Some(|Filter(uplinks.items, NotActive)|) else None)
              && (s.inactiveUplinks.Some? ==> s.inactiveUplinks.value <= s.totalUplinks.value)
    // recommendations: none unless asked for; then the uplink one first when an uplink is
    // inactive, and one per scanned network with offline devices, in scan order
    ensures result.Ok? && !includeRecommendations ==> result.value.recommendations == []
    ensures result.Ok? && includeRecommendations ==>
              var rep := result.value;
              rep.recommendations
                == (if InactiveUplinks(rep.summary) > 0 then [UplinkRecommendation] else [])
                   + MapSeq(Filter(rep.networkHealth, HasOffline), OfflineRecommendation)
  {
    var totalNetworks: Option<nat> := None;
    var health: seq<NetworkHealth> := [];

    var networks := up(OrganizationNetworks(organizationId));
    if networks.List? {
      totalNetworks := Some(|networks.items|);
      var scan := ScanNetworks(up, networks.items);
      if scan.Err? {
        return Err(scan.error);
      }
      health := scan.value;
    }

    var totalUplinks: Option<nat> := None;
    var inactiveUplinks: Option<nat> := None;
    var uplinks := up(OrganizationUplinkStatuses(organizationId));
    if uplinks.List? {
      totalUplinks := Some(|uplinks.items|);
      inactiveUplinks := Some(|Filter(uplinks.items, NotActive)|);
    }
    var summary := Summary(totalNetworks, totalUplinks, inactiveUplinks);

    var recommendations: seq<string> := [];
    if includeRecommendations {
      recommendations := Recommend(summary, health);
    }

    result := Ok(Report(organizationId, summary, health, [], recommendations));
  }

  /** `recs` names, at the strictly increasing positions `idx`, the entries of `health`. */
  ghost predicate NamesAt(idx: seq<int>, recs: seq<string>, health: seq<NetworkHealth>)
  {
    && |idx| == |recs|
    && (forall k :: 0 <= k < |idx| ==> 0 <= idx[k] < |health| && recs[k] == OfflineRecommendation(health[idx[k]]))
    && (forall k, l :: 0 <= k < l < |idx| ==> idx[k] < idx[l])
  }

  /** The per-network recommendations name, in scan order, exactly the
      scanned networks with offline devices. */
  lemma OfflineRecommendationsInOrder(health: seq<NetworkHealth>)
    ensures exists idx: seq<int> ::
              && NamesAt(idx, MapSeq(Filter(health, HasOffline), OfflineRecommendation), health)
              && (forall i :: 0 <= i < |health| ==> (i in idx <==> health[i].offlineDevices > 0))
  {
    var selected := Filter(health, HasOffline);
    FilterSelectsInOrder(health, HasOffline);
    var idx: seq<int> :| IsSelection(idx, selected, health)
                         && forall i :: 0 <= i < |health| ==> (i in idx <==> HasOffline(health[i]));
    var recs := MapSeq(selected, OfflineRecommendation);
    forall k | 0 <= k < |idx|
      ensures recs[k] == OfflineRecommendation(health[idx[k]])
    {
      assert selected[k] == health[idx[k]];
    }
    assert NamesAt(idx, recs, health);
  }
}

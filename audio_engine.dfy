/** The audio output device registry of the player engine: the device
    list, the current device, the one-time start-up probe, the rebuild
    that every topology notification triggers, and the reconciliation of
    each player's selected device against the rebuilt list. */
module AudioEngines {
  import opened Text
  import opened Endpoints

  /** The audio side of one player: the device it plays to, by friendly
      name, and how many times it has been told to re-confirm that device. */
  class PlayerAudio {
    var device: string
    var raiseCount: nat

    constructor (device: string)
      ensures this.device == device && raiseCount == 0
    {
      this.device := device;
      raiseCount := 0;
    }

    /** Re-announce the selected device; the selection itself stays. */
    method RaiseDevice()
      modifies this
      ensures device == old(device) && raiseCount == old(raiseCount) + 1
    {
      raiseCount := raiseCount + 1;
    }
  }

  /** No player object occurs twice in the engine's player list. */
  predicate DistinctPlayers(players: seq<PlayerAudio>)
  {
    forall i, j :: 0 <= i < j < |players| ==> players[i] != players[j]
  }

  /** The device list a rebuild produces: the sentinel, then the friendly
      name of every active endpoint in enumeration order, duplicates kept. */
  function RebuiltDevices(active: seq<Endpoint>): (r: seq<string>)
    ensures |r| == |active| + 1 && r[0] == DefaultDeviceName
    ensures forall i :: 0 <= i < |active| ==> r[i + 1] == active[i].friendlyName
  {
    [DefaultDeviceName] + Names(active)
  }

  /** A name is in the rebuilt list exactly when it is the sentinel or the
      friendly name (compared exactly) of some active endpoint. */
  lemma InRebuiltDevices(active: seq<Endpoint>, name: string)
    ensures name in RebuiltDevices(active) <==>
      name == DefaultDeviceName || exists i :: 0 <= i < |active| && active[i].friendlyName == name
  {
    var r := RebuiltDevices(active);
    if name in r && name != DefaultDeviceName {
      var k :| 0 <= k < |r| && r[k] == name;
      assert active[k - 1].friendlyName == name;
    }
    if exists i :: 0 <= i < |active| && active[i].friendlyName == name {
      var i :| 0 <= i < |active| && active[i].friendlyName == name;
      assert r[i + 1] == name;
    }
  }

  /** Every name of the rebuilt list resolves to an id through the lookup
      over the same enumeration: the list and GetDeviceId agree. */
  lemma RebuiltDevicesResolve(active: seq<Endpoint>, name: string)
    requires name in RebuiltDevices(active)
    ensures IdForName(active, name).Found?
  {
    InRebuiltDevices(active, name);
    if name != DefaultDeviceName {
      var i :| 0 <= i < |active| && active[i].friendlyName == name;
      assert Matches(active[i], ByName, name);
    }
  }

  /** An endpoint named exactly "Default" appears in the rebuilt list next
      to the sentinel, so a player holding that name is kept; but the name
      lookup answers the sentinel id, never the endpoint's own id. */
  lemma DefaultNamedEndpoint(active: seq<Endpoint>, i: int)
    requires 0 <= i < |active| && active[i].friendlyName == DefaultDeviceName
    ensures RebuiltDevices(active)[0] == RebuiltDevices(active)[i + 1] == DefaultDeviceName
    ensures IdForName(active, active[i].friendlyName) == Found(DefaultDeviceId)
  {
  }

  /** The lookups compare up to case, the list membership test exactly: a
      name that matches an endpoint only up to case resolves to an id, yet is
      missing from the rebuilt list, so reconciliation resets a player
      holding it to the sentinel. */
  lemma ResolvedNameMayBeUnlisted(active: seq<Endpoint>, name: string)
    requires name != DefaultDeviceName
    requires exists i :: 0 <= i < |active| && Matches(active[i], ByName, name)
    requires forall i :: 0 <= i < |active| ==> active[i].friendlyName != name
    ensures IdForName(active, name).Found?
    ensures name !in RebuiltDevices(active)
  {
    InRebuiltDevices(active, name);
  }

  /** One endpoint "Speakers": "speakers" resolves but is not listed. */
  lemma SpeakersExample()
    ensures IdForName([Endpoint("{A}", "Speakers")], "speakers") == Found("{A}")
    ensures "speakers" !in RebuiltDevices([Endpoint("{A}", "Speakers")])
  {
    var active := [Endpoint("{A}", "Speakers")];
    assert Lower("Speakers") == Lower("speakers");
    assert Matches(active[0], ByName, "speakers");
    ResolvedNameMayBeUnlisted(active, "speakers");
  }

  /** Every player's device is in the list; a player whose device was
      already listed keeps it and was re-announced exactly once; every other
      player now has the sentinel and was not re-announced. */
  twostate predicate Reconciled(devices: seq<string>, players: seq<PlayerAudio>)
    reads set p | p in players
  {
    (forall i :: 0 <= i < |players| ==> players[i].device in devices) &&
    (forall i :: 0 <= i < |players| && old(players[i].device) in devices ==>
      players[i].device == old(players[i].device) &&
      players[i].raiseCount == old(players[i].raiseCount) + 1) &&
    (forall i :: 0 <= i < |players| && old(players[i].device) !in devices ==>
      players[i].device == DefaultDeviceName &&
      players[i].raiseCount == old(players[i].raiseCount))
  }

  class AudioEngine {
    /** Audio is unusable: disabled, no default endpoint, or the XAudio2 probe failed. */
    var failed: bool
    var currentDeviceName: string
    var currentDeviceId: string
    /** The device names offered to the user, sentinel first. */
    var devices: seq<string>
    /** The platform enumerator exists (it is not created when audio is disabled). */
    var enumeratorCreated: bool
    /** The engine is subscribed to endpoint notifications. */
    var registered: bool
    /** How many times RefreshDevices has run since construction. */
    ghost var refreshes: nat

    ghost predicate Valid()
      reads this
    {
      (registered ==> enumeratorCreated) &&
      (!failed ==> registered) &&
      (registered ==> |devices| >= 1 && devices[0] == DefaultDeviceName) &&
      (!registered ==>
         devices == [] &&
         currentDeviceName == DefaultDeviceName && currentDeviceId == DefaultDeviceId)
    }

    /** Start-up: given the configuration switch, what the enumerator
        reports, and whether an XAudio2 instance could be created. */
    constructor (disableAudio: bool, platform: Platform, xaudio2Created: bool)
      ensures Valid() && refreshes == 0
      ensures disableAudio ==>
        failed && !enumeratorCreated && !registered && devices == [] &&
        currentDeviceName == DefaultDeviceName && currentDeviceId == DefaultDeviceId
      ensures !disableAudio && platform.defaultEndpoint.None? ==>
        failed && enumeratorCreated && !registered && devices == [] &&
        currentDeviceName == DefaultDeviceName && currentDeviceId == DefaultDeviceId
      ensures !disableAudio && platform.defaultEndpoint.Some? ==>
        enumeratorCreated && registered && failed == !xaudio2Created &&
        devices == RebuiltDevices(platform.active) &&
        currentDeviceId == platform.defaultEndpoint.value.id &&
        currentDeviceName == platform.defaultEndpoint.value.friendlyName
    {
      failed := false;
      currentDeviceName := DefaultDeviceName;
      currentDeviceId := DefaultDeviceId;
      devices := [];
      enumeratorCreated := false;
      registered := false;
      refreshes := 0;
      new;
      if disableAudio {
        failed := true;
      } else {
        enumeratorCreated := true;
        match platform.defaultEndpoint
        case None =>
          failed := true;
        case Some(defaultDevice) =>
          RebuildDevices(platform.active);
          currentDeviceId := defaultDevice.id;
          currentDeviceName := defaultDevice.friendlyName;
          if !xaudio2Created {
            failed := true;
          }
          registered := true;
      }
    }

    /** Clear the device list, add the sentinel, then add every active
        endpoint's friendly name in enumeration order. */
    method RebuildDevices(active: seq<Endpoint>)
      modifies this`devices
      ensures devices == RebuiltDevices(active)
    {
      devices := [DefaultDeviceName];
      var k := 0;
      while k < |active|
        invariant 0 <= k <= |active|
        invariant devices == [DefaultDeviceName] + Names(active[..k])
      {
        assert active[..k + 1][..k] == active[..k];
        devices := devices + [active[k].friendlyName];
        k := k + 1;
      }
      assert active[..k] == active;
    }

    /** What one rebuild does: the list is rebuilt from the enumeration and
        every player is reconciled with it; the current device follows the
        default endpoint when there is one and stays as it was otherwise;
        nothing else changes. */
    twostate predicate Refreshed(platform: Platform, players: seq<PlayerAudio>)
      reads this, set p | p in players
    {
      devices == RebuiltDevices(platform.active) &&
      Reconciled(devices, players) &&
      (if platform.defaultEndpoint.Some? then
         currentDeviceId == platform.defaultEndpoint.value.id &&
         currentDeviceName == platform.defaultEndpoint.value.friendlyName
       else
         currentDeviceId == old(currentDeviceId) && currentDeviceName == old(currentDeviceName)) &&
      failed == old(failed) && enumeratorCreated == old(enumeratorCreated) &&
      registered == old(registered)
    }

    /** Rebuild the device list from the enumeration, reconcile every
        player's selection with it, then follow the default endpoint. */
    method RefreshDevices(platform: Platform, players: seq<PlayerAudio>)
      requires Valid() && registered && DistinctPlayers(players)
      modifies this, set p | p in players
      ensures Valid() && Refreshed(platform, players)
      ensures refreshes == old(refreshes) + 1
    {
      RebuildDevices(platform.active);
      ReconcilePlayers(players);
      if platform.defaultEndpoint.Some? {
        currentDeviceId := platform.defaultEndpoint.value.id;
        currentDeviceName := platform.defaultEndpoint.value.friendlyName;
      }
      refreshes := refreshes + 1;
    }

    /** For each player in turn: a device missing from the list is replaced
        by the sentinel, a device still listed is re-announced. */
    method ReconcilePlayers(players: seq<PlayerAudio>)
      requires DefaultDeviceName in devices && DistinctPlayers(players)
      modifies set p | p in players
      ensures Reconciled(devices, players)
    {
      var k := 0;
      while k < |players|
        invariant 0 <= k <= |players|
        invariant forall i :: 0 <= i < k ==> players[i].device in devices
        invariant forall i :: 0 <= i < k && old(players[i].device) in devices ==>
          players[i].device == old(players[i].device) &&
          players[i].raiseCount == old(players[i].raiseCount) + 1
        invariant forall i :: 0 <= i < k && old(players[i].device) !in devices ==>
          players[i].device == DefaultDeviceName &&
          players[i].raiseCount == old(players[i].raiseCount)
        invariant forall i :: k <= i < |players| ==>
          players[i].device == old(players[i].device) &&
          players[i].raiseCount == old(players[i].raiseCount)
      {
        var player := players[k];
        if player.device !in devices {
          player.device := DefaultDeviceName;
        } else {
          player.RaiseDevice();
        }
        k := k + 1;
      }
    }

    /** GetDeviceId: the sentinel name answers the sentinel id; otherwise
        the enumeration is scanned for the first friendly name equal up to
        case. Without an enumerator the scan cannot start. */
    method GetDeviceId(platform: Platform, deviceName: string) returns (r: Lookup)
      ensures r == if deviceName != DefaultDeviceName && !enumeratorCreated
                   then Failure(NoEnumerator) else IdForName(platform.active, deviceName)
    {
      if deviceName == DefaultDeviceName {
        return Found(DefaultDeviceId);
      }
      if !enumeratorCreated {
        return Failure(NoEnumerator);
      }
      var active := platform.active;
      var k := 0;
      while k < |active|
        invariant 0 <= k <= |active|
        invariant forall j :: 0 <= j < k ==> !Matches(active[j], ByName, deviceName)
      {
        if Lower(active[k].friendlyName) == Lower(deviceName) {
          assert IsFirstMatch(active, ByName, deviceName, k);
          FirstMatchUnique(active, ByName, deviceName, k, FindFirst(active, ByName, deviceName).value);
          return Found(active[k].id);
        }
        k := k + 1;
      }
      assert FindFirst(active, ByName, deviceName).None?;
      return Failure(NotFound);
    }

    /** GetDeviceName: the sentinel id answers the sentinel name; otherwise
        the enumeration is scanned for the first id equal up to case.
        Without an enumerator the scan cannot start. */
    method GetDeviceName(platform: Platform, deviceId: string) returns (r: Lookup)
      ensures r == if deviceId != DefaultDeviceId && !enumeratorCreated
                   then Failure(NoEnumerator) else NameForId(platform.active, deviceId)
    {
      if deviceId == DefaultDeviceId {
        return Found(DefaultDeviceName);
      }
      if !enumeratorCreated {
        return Failure(NoEnumerator);
      }
      var active := platform.active;
      var k := 0;
      while k < |active|
        invariant 0 <= k <= |active|
        invariant forall j :: 0 <= j < k ==> !Matches(active[j], ById, deviceId)
      {
        if Lower(active[k].id) == Lower(deviceId) {
          assert IsFirstMatch(active, ById, deviceId, k);
          FirstMatchUnique(active, ById, deviceId, k, FindFirst(active, ById, deviceId).value);
          return Found(active[k].friendlyName);
        }
        k := k + 1;
      }
      assert FindFirst(active, ById, deviceId).None?;
      return Failure(NotFound);
    }

    /** An endpoint changed state: one rebuild. */
    method OnDeviceStateChanged(platform: Platform, players: seq<PlayerAudio>, deviceId: string, newState: int)
      requires Valid() && registered && DistinctPlayers(players)
      modifies this, set p | p in players
      ensures Valid() && Refreshed(platform, players) && refreshes == old(refreshes) + 1
    {
      RefreshDevices(platform, players);
    }

    /** An endpoint was added: one rebuild. */
    method OnDeviceAdded(platform: Platform, players: seq<PlayerAudio>, deviceId: string)
      requires Valid() && registered && DistinctPlayers(players)
      modifies this, set p | p in players
      ensures Valid() && Refreshed(platform, players) && refreshes == old(refreshes) + 1
    {
      RefreshDevices(platform, players);
    }

    /** An endpoint was removed: one rebuild. */
    method OnDeviceRemoved(platform: Platform, players: seq<PlayerAudio>, deviceId: string)
      requires Valid() && registered && DistinctPlayers(players)
      modifies this, set p | p in players
      ensures Valid() && Refreshed(platform, players) && refreshes == old(refreshes) + 1
    {
      RefreshDevices(platform, players);
    }

    /** The default endpoint changed (any data flow, any role): one rebuild. */
    method OnDefaultDeviceChanged(platform: Platform, players: seq<PlayerAudio>, flow: int, role: int, defaultDeviceId: string)
      requires Valid() && registered && DistinctPlayers(players)
      modifies this, set p | p in players
      ensures Valid() && Refreshed(platform, players) && refreshes == old(refreshes) + 1
    {
      RefreshDevices(platform, players);
    }

    /** A property of an endpoint changed: ignored, no rebuild. */
    method OnPropertyValueChanged(deviceId: string, key: string)
      ensures unchanged(this)
    {
    }
  }

  /** Two endpoints, the first the default; a player on the first. The
      first is unplugged and the platform now reports only the second,
      which has become the default. */
  method UnplugScenario()
  {
    var speakers := Endpoint("{A}", "Speakers (A)");
    var headset := Endpoint("{B}", "Headset (B)");
    var engine := new AudioEngine(false, Platform([speakers, headset], Some(speakers)), true);
    assert engine.devices == ["Default", "Speakers (A)", "Headset (B)"];
    assert engine.currentDeviceName == "Speakers (A)" && !engine.failed;

    var player := new PlayerAudio("Speakers (A)");
    var stays := new PlayerAudio("Headset (B)");
    var players := [player, stays];
    label Before:
    engine.OnDeviceRemoved(Platform([headset], Some(headset)), players, "{A}");
    assert engine.devices == ["Default", "Headset (B)"];
    assert engine.currentDeviceName == "Headset (B)";
    assert players[0] == player && old@Before(player.device) !in engine.devices;
    assert player.device == "Default" && player.raiseCount == 0;
    assert players[1] == stays && old@Before(stays.device) in engine.devices;
    assert stays.device == "Headset (B)" && stays.raiseCount == 1;
  }
}

/**
 * Device names for the report: the `Map` from device id to name filled from
 * the device list, and the name a device group is given.
 */
module DeviceNames {
  import opened Common

  /** One device of the device list; `name` is absent when the backend sends null. */
  datatype Device = Device(id: ApiKey, name: Option<string>)

  /**
   * What the name map holds for `id` once every device of `devices` has been
   * set into it: `None` when no device has that id, otherwise the name of
   * the last device with that id.
   */
  function LastEntry(devices: seq<Device>, id: ApiKey): Option<Option<string>> {
    if devices == [] then None
    else if devices[|devices| - 1].id == id then Some(devices[|devices| - 1].name)
    else LastEntry(devices[..|devices| - 1], id)
  }

  /** The entry is absent exactly when no device has the id. */
  lemma {:induction false} LastEntryAbsent(devices: seq<Device>, id: ApiKey)
    ensures LastEntry(devices, id).None? <==> forall k :: 0 <= k < |devices| ==> devices[k].id != id
  {
    if devices != [] {
      var pre := devices[..|devices| - 1];
      LastEntryAbsent(pre, id);
      assert forall k :: 0 <= k < |pre| ==> pre[k] == devices[k];
    }
  }

  /** The entry holds the name of the device at `k` when no later device has its id. */
  lemma {:induction false} LastEntryAt(devices: seq<Device>, id: ApiKey, k: nat)
    requires k < |devices| && devices[k].id == id
    requires forall j :: k < j < |devices| ==> devices[j].id != id
    ensures LastEntry(devices, id) == Some(devices[k].name)
  {
    if k < |devices| - 1 {
      var pre := devices[..|devices| - 1];
      assert devices[|devices| - 1].id != id;
      assert forall j :: k <= j < |pre| ==> pre[j] == devices[j];
      LastEntryAt(pre, id, k);
    }
  }

  /**
   * A later `set` overwrites an earlier one: the entry is absent exactly when
   * no device has the id, and otherwise holds the name of the last device
   * with that id.
   */
  lemma LastEntryWins(devices: seq<Device>, id: ApiKey)
    ensures LastEntry(devices, id).None? <==> forall k :: 0 <= k < |devices| ==> devices[k].id != id
    ensures forall k :: 0 <= k < |devices| && devices[k].id == id
                        && (forall j :: k < j < |devices| ==> devices[j].id != id) ==>
                        LastEntry(devices, id) == Some(devices[k].name)
  {
    LastEntryAbsent(devices, id);
    forall k | 0 <= k < |devices| && devices[k].id == id && (forall j :: k < j < |devices| ==> devices[j].id != id)
      ensures LastEntry(devices, id) == Some(devices[k].name)
    {
      LastEntryAt(devices, id, k);
    }
  }

  /** The `forEach` that fills the name map. */
  method BuildNameMap(devices: seq<Device>) returns (names: map<ApiKey, Option<string>>)
    ensures forall id :: id in names <==> LastEntry(devices, id).Some?
    ensures forall id :: id in names ==> names[id] == LastEntry(devices, id).value
  {
    names := map[];
    for i := 0 to |devices|
      invariant forall id :: id in names <==> LastEntry(devices[..i], id).Some?
      invariant forall id :: id in names ==> names[id] == LastEntry(devices[..i], id).value
    {
      assert devices[..i + 1][..i] == devices[..i];
      var device := devices[i];
      names := names[device.id := device.name];
    }
    assert devices[..|devices|] == devices;
  }

  /** `deviceNameMap.get(id) ?? \`Device ${id}\``: an empty name is kept, a missing one replaced. */
  function GroupName(names: map<ApiKey, Option<string>>, id: ApiKey, show: real -> string): string {
    if id in names && names[id].Some? then names[id].value else "Device " + KeyText(id, show)
  }

  /** The name a device gets, read off the device list itself. */
  function ListedName(devices: seq<Device>, id: ApiKey, show: real -> string): string {
    match LastEntry(devices, id)
    case Some(Some(n)) => n
    case _ => "Device " + KeyText(id, show)
  }

  /**
   * A device's name is the name of the last listed device with its id; it is
   * `Device <id>` when that device has no name or no device has the id.
   */
  lemma ListedNameCases(devices: seq<Device>, id: ApiKey, show: real -> string)
    ensures (forall k :: 0 <= k < |devices| ==> devices[k].id != id) ==>
              ListedName(devices, id, show) == "Device " + KeyText(id, show)
    ensures forall k :: 0 <= k < |devices| && devices[k].id == id
                        && (forall j :: k < j < |devices| ==> devices[j].id != id) ==>
                        ListedName(devices, id, show) == devices[k].name.GetOr("Device " + KeyText(id, show))
  {
    LastEntryWins(devices, id);
  }

  /**
   * The map built by the loop names every device as the device list does:
   * the last listed name for its id, or `Device <id>` when the id is not
   * listed or listed without a name.
   */
  lemma GroupNameFromList(devices: seq<Device>, names: map<ApiKey, Option<string>>, id: ApiKey, show: real -> string)
    requires forall id :: id in names <==> LastEntry(devices, id).Some?
    requires forall id :: id in names ==> names[id] == LastEntry(devices, id).value
    ensures GroupName(names, id, show) == ListedName(devices, id, show)
    ensures (forall k :: 0 <= k < |devices| ==> devices[k].id != id) ==> GroupName(names, id, show) == "Device " + KeyText(id, show)
  {
    LastEntryWins(devices, id);
  }
}

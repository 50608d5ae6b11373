/**
 * `Usc3._port_seek`: the enumerated serial devices are filtered by the configured
 * serial number, or by the controller's USB vendor id when none is configured, and
 * the port of the last match is chosen.
 */
module Discovery {
  import opened Wrappers

  /** One `{'PORT', 'VID', 'SN'}` record; the OS may report no vendor id or serial number. */
  datatype Device = Device(port: string, vid: Option<int>, serialNumber: Option<string>)

  /** The vendor id compared against when no serial number is configured. */
  const ControllerVid: int := 0x2341

  /** `port_list[-1]` on an empty list raises `IndexError`. */
  datatype SeekError = NoMatchingDevice

  /** The filter of the two list comprehensions. */
  predicate Selected(d: Device, serialNumber: Option<string>) {
    if serialNumber.None? then d.vid == Some(ControllerVid)
    else d.serialNumber == serialNumber
  }

  /** `port_list`: the ports of the selected devices, in enumeration order. */
  function PortList(devices: seq<Device>, serialNumber: Option<string>): seq<string> {
    if |devices| == 0 then []
    else
      var last := devices[|devices| - 1];
      PortList(devices[..|devices| - 1], serialNumber)
        + (if Selected(last, serialNumber) then [last.port] else [])
  }

  /** `_port_seek()` over the enumerated `devices`. */
  function PortSeek(devices: seq<Device>, serialNumber: Option<string>): Result<string, SeekError> {
    var ports := PortList(devices, serialNumber);
    if |ports| == 0 then Err(NoMatchingDevice) else Ok(ports[|ports| - 1])
  }

  /** The port list holds exactly the ports of the selected devices. */
  lemma {:induction false} PortListMembers(devices: seq<Device>, serialNumber: Option<string>)
    ensures forall p :: p in PortList(devices, serialNumber) <==>
              exists i :: 0 <= i < |devices| && Selected(devices[i], serialNumber) && devices[i].port == p
  {
    if |devices| > 0 {
      var init := devices[..|devices| - 1];
      PortListMembers(init, serialNumber);
      forall i | 0 <= i < |init| ensures init[i] == devices[i] { }
    }
  }

  /** Seeking fails exactly when no device is selected. */
  lemma {:induction false} PortSeekFails(devices: seq<Device>, serialNumber: Option<string>)
    ensures PortSeek(devices, serialNumber).Err? <==>
              forall i :: 0 <= i < |devices| ==> !Selected(devices[i], serialNumber)
  {
    PortListMembers(devices, serialNumber);
    var ports := PortList(devices, serialNumber);
    if |ports| > 0 {
      assert ports[|ports| - 1] in ports;
    } else {
      forall i | 0 <= i < |devices| ensures !Selected(devices[i], serialNumber) {
        var d := devices[i];
        assert Selected(d, serialNumber) ==> d.port in ports;
      }
    }
  }

  /**
   * A successful seek yields the port of a selected device after which no device
   * is selected: the last match in enumeration order.
   */
  lemma {:induction false} PortSeekLast(devices: seq<Device>, serialNumber: Option<string>) returns (i: nat)
    requires PortSeek(devices, serialNumber).Ok?
    ensures i < |devices| && Selected(devices[i], serialNumber)
    ensures devices[i].port == PortSeek(devices, serialNumber).value
    ensures forall j :: i < j < |devices| ==> !Selected(devices[j], serialNumber)
  {
    var n := |devices|;
    var init := devices[..n - 1];
    if Selected(devices[n - 1], serialNumber) {
      i := n - 1;
    } else {
      assert PortList(devices, serialNumber) == PortList(init, serialNumber);
      i := PortSeekLast(init, serialNumber);
      assert devices[i] == init[i];
      assert forall j :: i < j < n - 1 ==> devices[j] == init[j];
    }
  }

  /**
   * A configured serial number selects a device whatever its vendor id; without one,
   * the vendor id selects it whatever its serial number.
   */
  lemma FilterIgnoresOtherField(devices: seq<Device>, port: string, vid: Option<int>, sn: Option<string>)
    ensures sn.Some? ==> PortSeek(devices + [Device(port, vid, sn)], sn) == Ok(port)
    ensures PortSeek(devices + [Device(port, Some(ControllerVid), sn)], None) == Ok(port)
  {
    assert (devices + [Device(port, vid, sn)])[..|devices|] == devices;
    assert (devices + [Device(port, Some(ControllerVid), sn)])[..|devices|] == devices;
  }
}

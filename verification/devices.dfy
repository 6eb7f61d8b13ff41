/**
 * Output-device listing and lookup (pkg/tts/devices.go). PortAudio's
 * device enumeration is an input: whether initialisation fails, the
 * device list (or its error), and the name of the default output device.
 */
module Devices {
  import opened Wrappers

  /** The part of a PortAudio device description the listing reads. */
  datatype DeviceInfo = DeviceInfo(name: string, maxOutputChannels: int)

  datatype AudioDevice = AudioDevice(id: string, name: string, isDefault: bool, sampleRates: seq<int>)

  /** What PortAudio reports to ListAudioDevices. */
  datatype Host = Host(
    initError: Option<string>,
    devices: Result<seq<DeviceInfo>, string>,
    defaultOutputName: string)

  /** The sample rates every listed device advertises. */
  const CommonSampleRates: seq<int> := [44100, 48000]

  /** A device can be listed when it has at least one output channel. */
  predicate IsOutput(d: DeviceInfo)
  {
    d.maxOutputChannels > 0
  }

  /** The AudioDevice listed for an output device. */
  function Describe(d: DeviceInfo, defaultName: string): AudioDevice
  {
    AudioDevice(d.name, d.name, d.name == defaultName, CommonSampleRates)
  }

  /** The listing of a device sequence: its output devices, described, in order. */
  function OutputDevices(devices: seq<DeviceInfo>, defaultName: string): (listed: seq<AudioDevice>)
    ensures |listed| <= |devices|
    decreases |devices|
  {
    if devices == [] then []
    else
      var last := devices[|devices| - 1];
      OutputDevices(devices[..|devices| - 1], defaultName)
        + (if IsOutput(last) then [Describe(last, defaultName)] else [])
  }

  /** ListAudioDevices, as a value. */
  function Listing(host: Host): Result<seq<AudioDevice>, string>
  {
    if host.initError.Some? then Err("failed to initialize PortAudio: " + host.initError.value)
    else if host.devices.Err? then Err("failed to get devices: " + host.devices.error)
    else Ok(OutputDevices(host.devices.value, host.defaultOutputName))
  }

  /** Listing respects concatenation: order is kept and each device is judged alone. */
  lemma {:induction false} OutputDevicesAppend(a: seq<DeviceInfo>, b: seq<DeviceInfo>, defaultName: string)
    ensures OutputDevices(a + b, defaultName) == OutputDevices(a, defaultName) + OutputDevices(b, defaultName)
    decreases |b|
  {
    if b == [] {
      assert a + b == a;
    } else {
      var init := b[..|b| - 1];
      assert (a + b)[..|a + b| - 1] == a + init;
      OutputDevicesAppend(a, init, defaultName);
    }
  }

  /**
   * Every listed device is the description of an output device: id and
   * name are the device's name, IsDefault tells whether that name is the
   * default's, and the sample rates are 44100 and 48000.
   */
  lemma {:induction false} ListedAreDescribedOutputs(devices: seq<DeviceInfo>, defaultName: string)
    ensures forall k :: 0 <= k < |OutputDevices(devices, defaultName)| ==>
              var a := OutputDevices(devices, defaultName)[k];
              && a.id == a.name
              && (a.isDefault <==> a.name == defaultName)
              && a.sampleRates == [44100, 48000]
              && exists i :: 0 <= i < |devices| && IsOutput(devices[i]) && devices[i].name == a.name
    decreases |devices|
  {
    if devices != [] {
      var init := devices[..|devices| - 1];
      ListedAreDescribedOutputs(init, defaultName);
      forall k | 0 <= k < |OutputDevices(devices, defaultName)|
        ensures exists i :: 0 <= i < |devices| && IsOutput(devices[i]) && devices[i].name == OutputDevices(devices, defaultName)[k].name
      {
        if k < |OutputDevices(init, defaultName)| {
          assert OutputDevices(devices, defaultName)[k] == OutputDevices(init, defaultName)[k];
          var i :| 0 <= i < |init| && IsOutput(init[i]) && init[i].name == OutputDevices(init, defaultName)[k].name;
          assert devices[i] == init[i];
        } else {
          assert devices[|devices| - 1].name == OutputDevices(devices, defaultName)[k].name;
        }
      }
    }
  }

  /** Every device with an output channel is listed under its name. */
  lemma {:induction false} OutputIsListed(devices: seq<DeviceInfo>, defaultName: string, i: nat)
    requires i < |devices| && IsOutput(devices[i])
    ensures exists k :: 0 <= k < |OutputDevices(devices, defaultName)| && OutputDevices(devices, defaultName)[k].id == devices[i].name
    decreases |devices|
  {
    var init := devices[..|devices| - 1];
    var last := devices[|devices| - 1];
    var listed := OutputDevices(devices, defaultName);
    var before := OutputDevices(init, defaultName);
    assert listed == before + (if IsOutput(last) then [Describe(last, defaultName)] else []);
    if i < |devices| - 1 {
      assert init[i] == devices[i];
      OutputIsListed(init, defaultName, i);
      var k :| 0 <= k < |before| && before[k].id == init[i].name;
      assert listed[k] == before[k];
    } else {
      assert listed[|before|].id == devices[i].name;
    }
  }

  /** A name is listed exactly when some device of that name has an output channel. */
  lemma ListedIffOutput(devices: seq<DeviceInfo>, defaultName: string, id: string)
    ensures (exists k :: 0 <= k < |OutputDevices(devices, defaultName)| && OutputDevices(devices, defaultName)[k].id == id)
            <==> (exists i :: 0 <= i < |devices| && IsOutput(devices[i]) && devices[i].name == id)
  {
    var listed := OutputDevices(devices, defaultName);
    ListedAreDescribedOutputs(devices, defaultName);
    if exists i :: 0 <= i < |devices| && IsOutput(devices[i]) && devices[i].name == id {
      var i :| 0 <= i < |devices| && IsOutput(devices[i]) && devices[i].name == id;
      OutputIsListed(devices, defaultName, i);
    }
    if exists k :: 0 <= k < |listed| && listed[k].id == id {
      var k :| 0 <= k < |listed| && listed[k].id == id;
      assert listed[k].id == listed[k].name;
    }
  }

  /** ListAudioDevices: keep each output device, in order. */
  method ListAudioDevices(host: Host) returns (r: Result<seq<AudioDevice>, string>)
    ensures r == Listing(host)
  {
    if host.initError.Some? {
      return Err("failed to initialize PortAudio: " + host.initError.value);
    }
    if host.devices.Err? {
      return Err("failed to get devices: " + host.devices.error);
    }
    var devices := host.devices.value;
    var audioDevices: seq<AudioDevice> := [];
    var i := 0;
    while i < |devices|
      invariant 0 <= i <= |devices|
      invariant audioDevices == OutputDevices(devices[..i], host.defaultOutputName)
    {
      var dev := devices[i];
      if dev.maxOutputChannels > 0 {
        audioDevices := audioDevices + [AudioDevice(dev.name, dev.name, dev.name == host.defaultOutputName, [44100, 48000])];
      }
      assert devices[..i + 1][..i] == devices[..i];
      i := i + 1;
    }
    assert devices[..i] == devices;
    return Ok(audioDevices);
  }

  /** The error SetDefaultDevice returns for an unknown id. */
  function NotFoundMessage(deviceId: string): string
  {
    "device not found: " + deviceId
  }

  /**
   * SetDefaultDevice: a listing error is passed on unchanged; otherwise it
   * succeeds exactly when a listed device has the given id.
   */
  method SetDefaultDevice(deviceId: string, host: Host) returns (err: Option<string>)
    ensures Listing(host).Err? ==> err == Some(Listing(host).error)
    ensures Listing(host).Ok? ==>
              (err == None <==> exists k :: 0 <= k < |Listing(host).value| && Listing(host).value[k].id == deviceId)
    ensures Listing(host).Ok? && err != None ==> err == Some(NotFoundMessage(deviceId))
  {
    var listing := ListAudioDevices(host);
    if listing.Err? {
      return Some(listing.error);
    }
    var devices := listing.value;
    var k := 0;
    while k < |devices|
      invariant 0 <= k <= |devices|
      invariant forall j :: 0 <= j < k ==> devices[j].id != deviceId
    {
      if devices[k].id == deviceId {
        return None;
      }
      k := k + 1;
    }
    return Some("device not found: " + deviceId);
  }

  /** SetDefaultDevice succeeds exactly when some device of that name has an output channel. */
  lemma SetDefaultDeviceFindsOutputs(host: Host, deviceId: string)
    requires host.initError.None? && host.devices.Ok?
    ensures Listing(host).Ok?
    ensures (exists k :: 0 <= k < |Listing(host).value| && Listing(host).value[k].id == deviceId)
            <==> (exists i :: 0 <= i < |host.devices.value| && IsOutput(host.devices.value[i]) && host.devices.value[i].name == deviceId)
  {
    ListedIffOutput(host.devices.value, host.defaultOutputName, deviceId);
  }
}

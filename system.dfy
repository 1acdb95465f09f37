/** The flow graph of a plant (technoeconomics/system.py): devices keyed by
    name, flows keyed by (source, destination, flow name), and each flow object
    shared by the system and by both devices it connects. */
module FlowSystem {
  import opened Base
  import opened Dicts

  /** A mass or energy flow; its mass and energy are plain attributes. */
  class Flow {
    const name: string
    var mass: Option<real>
    var energy: Option<real>

    constructor(name: string, mass: Option<real>, energy: Option<real>)
      ensures this.name == name && this.mass == mass && this.energy == energy
    {
      this.name := name;
      this.mass := mass;
      this.energy := energy;
    }
  }

  /** A device with its input and output flows keyed by flow name. */
  class Device {
    const name: string
    var inputs: Dict<string, Flow>
    var outputs: Dict<string, Flow>

    constructor(name: string)
      ensures this.name == name && inputs == Empty() && outputs == Empty()
    {
      this.name := name;
      inputs := Empty();
      outputs := Empty();
    }

    /** `add_input`: a later flow of the same name replaces the earlier one
        in its place; a new name goes last. */
    method AddInput(flow: Flow)
      modifies this`inputs
      ensures inputs.entries == old(inputs.entries)[flow.name := flow]
      ensures inputs.order == if flow.name in old(inputs.entries) then old(inputs.order)
                              else old(inputs.order) + [flow.name]
      ensures old(inputs.Valid()) ==> inputs.Valid()
    {
      if inputs.Valid() {
        PutKeepsValid(inputs, flow.name, flow);
      }
      inputs := Put(inputs, flow.name, flow);
    }

    /** `add_output`: a later flow of the same name replaces the earlier one
        in its place; a new name goes last. */
    method AddOutput(flow: Flow)
      modifies this`outputs
      ensures outputs.entries == old(outputs.entries)[flow.name := flow]
      ensures outputs.order == if flow.name in old(outputs.entries) then old(outputs.order)
                               else old(outputs.order) + [flow.name]
      ensures old(outputs.Valid()) ==> outputs.Valid()
    {
      if outputs.Valid() {
        PutKeepsValid(outputs, flow.name, flow);
      }
      outputs := Put(outputs, flow.name, flow);
    }
  }

  /** Suffixes of the boundary devices that stand for the outside of the system. */
  const InputSuffix: string := " __dummyinput__"
  const OutputSuffix: string := " __dummyoutput__"

  type FlowKey = (string, string, string)

  /** The (source, destination) pair `add_flow` connects, after a missing
      source or destination is replaced by the boundary device; None when
      both are missing. */
  function Endpoints(from: Option<string>, to: Option<string>): Option<(string, string)> {
    if from.None? && to.None? then None
    else if from.None? then Some((to.value + InputSuffix, to.value))
    else if to.None? then Some((from.value, from.value + OutputSuffix))
    else Some((from.value, to.value))
  }

  /** The boundary device `add_flow` creates when it is missing. */
  function BoundaryDevice(from: Option<string>, to: Option<string>): Option<string> {
    if from.None? && to.Some? then Some(to.value + InputSuffix)
    else if from.Some? && to.None? then Some(from.value + OutputSuffix)
    else None
  }

  class System {
    var name: string
    var devices: Dict<string, Device>
    var flows: Dict<FlowKey, Flow>
    var systemVars: Dict<string, Value>

    /** Every device and every flow is registered once, under its own name. */
    ghost predicate Valid()
      reads this
    {
      devices.Valid() && flows.Valid()
      && (forall n :: n in devices.entries ==> devices.entries[n].name == n)
      && (forall k :: k in flows.entries ==> flows.entries[k].name == k.2)
    }

    /** The registered device objects. */
    ghost function DeviceSet(): set<Device>
      reads this
    {
      devices.entries.Values
    }

    constructor(name: string)
      ensures this.name == name && devices == Empty() && flows == Empty() && systemVars == Empty()
      ensures Valid()
    {
      this.name := name;
      devices := Empty();
      flows := Empty();
      systemVars := Empty();
    }

    /** `add_device`: refuses a second device of the same name; a new one
        goes last. */
    method AddDevice(device: Device) returns (o: Outcome)
      modifies this`devices
      ensures o.Fail? <==> device.name in old(devices.entries)
      ensures o.Fail? ==> devices == old(devices)
      ensures o.Pass? ==> devices.order == old(devices.order) + [device.name]
                          && devices.entries == old(devices.entries)[device.name := device]
      ensures old(Valid()) ==> Valid()
    {
      if device.name in devices.entries {
        return Fail("Device with name " + device.name + " already exists");
      }
      if Valid() {
        PutKeepsValid(devices, device.name, device);
      }
      devices := Put(devices, device.name, device);
      o := Pass;
    }

    /** `remove_device`: forgets the device; its flows stay registered. */
    method RemoveDevice(deviceName: string)
      modifies this`devices
      ensures devices.entries == old(devices.entries) - {deviceName}
      ensures old(Valid()) ==> Valid()
    {
      if Valid() {
        RemoveKeepsValid(devices, deviceName);
      }
      devices := Remove(devices, deviceName);
    }

    /** `add_flow`. A missing source or destination becomes the boundary
        device, registered if absent (and kept even when the flow is then
        refused); both endpoints must then be registered and the (source,
        destination, name) triple new. The one flow object is then stored in
        the flow table, among the destination's inputs and among the source's
        outputs. */
    method AddFlow(from: Option<string>, to: Option<string>, flow: Flow) returns (o: Outcome)
      requires Valid()
      modifies this`devices, this`flows, DeviceSet()
      ensures Valid()
      ensures Endpoints(from, to).None? ==> o.Fail?
      ensures var b := BoundaryDevice(from, to);
              if b.Some? && b.value !in old(devices.entries) then
                devices.order == old(devices.order) + [b.value]
                && b.value in devices.entries && fresh(devices.entries[b.value])
                && devices.entries == old(devices.entries)[b.value := devices.entries[b.value]]
              else devices == old(devices)
      ensures Endpoints(from, to).Some? ==>
                var f, t := Endpoints(from, to).value.0, Endpoints(from, to).value.1;
                (o.Pass? <==> f in devices.entries && t in devices.entries && (f, t, flow.name) !in old(flows.entries))
                && (o.Pass? ==> flows.order == old(flows.order) + [(f, t, flow.name)]
                                && flows.entries == old(flows.entries)[(f, t, flow.name) := flow]
                                && (t in old(devices.entries) ==>
                                      devices.entries[t].inputs.entries == old(devices.entries[t].inputs.entries)[flow.name := flow])
                                && (f in old(devices.entries) ==>
                                      devices.entries[f].outputs.entries == old(devices.entries[f].outputs.entries)[flow.name := flow])
                                && (t !in old(devices.entries) ==> devices.entries[t].inputs.entries == map[flow.name := flow])
                                && (f !in old(devices.entries) ==> devices.entries[f].outputs.entries == map[flow.name := flow]))
      ensures o.Fail? ==> flows == old(flows)
      ensures forall n :: n in old(devices.entries)
                          && (o.Fail? || Endpoints(from, to).None? || n != Endpoints(from, to).value.1) ==>
                devices.entries[n].inputs == old(devices.entries[n].inputs)
      ensures forall n :: n in old(devices.entries)
                          && (o.Fail? || Endpoints(from, to).None? || n != Endpoints(from, to).value.0) ==>
                devices.entries[n].outputs == old(devices.entries[n].outputs)
    {
      if from.None? && to.None? {
        return Fail("Cannot add flow without a source or destination");
      }
      var f, t := AddBoundary(from, to);
      forall n | n in old(devices.entries)
        ensures n in devices.entries && devices.entries[n] == old(devices.entries[n])
        ensures devices.entries[n].inputs == old(devices.entries[n].inputs)
        ensures devices.entries[n].outputs == old(devices.entries[n].outputs)
      {
      }
      o := Connect(f, t, flow);
    }

    /** The first half of `add_flow`: resolves a missing endpoint to the
        boundary device and registers that device when it is new. */
    method AddBoundary(from: Option<string>, to: Option<string>) returns (f: string, t: string)
      requires Valid() && Endpoints(from, to).Some?
      modifies this`devices
      ensures Valid()
      ensures (f, t) == Endpoints(from, to).value
      ensures var b := BoundaryDevice(from, to);
              if b.Some? && b.value !in old(devices.entries) then
                devices.order == old(devices.order) + [b.value]
                && b.value in devices.entries && fresh(devices.entries[b.value])
                && devices.entries == old(devices.entries)[b.value := devices.entries[b.value]]
                && devices.entries[b.value].inputs == Empty() && devices.entries[b.value].outputs == Empty()
              else devices == old(devices)
    {
      if from.None? {
        f, t := to.value + InputSuffix, to.value;
        if f !in devices.entries {
          var boundary := new Device(f);
          var _ := AddDevice(boundary);
        }
      } else if to.None? {
        f, t := from.value, from.value + OutputSuffix;
        if t !in devices.entries {
          var boundary := new Device(t);
          var _ := AddDevice(boundary);
        }
      } else {
        f, t := from.value, to.value;
      }
    }

    /** The second half of `add_flow`, once both endpoints are named. */
    method Connect(f: string, t: string, flow: Flow) returns (o: Outcome)
      requires Valid()
      modifies this`flows, DeviceSet()
      ensures Valid()
      ensures o.Pass? <==> f in devices.entries && t in devices.entries && (f, t, flow.name) !in old(flows.entries)
      ensures o.Fail? ==> flows == old(flows)
      ensures o.Pass? ==> flows.order == old(flows.order) + [(f, t, flow.name)]
                          && flows.entries == old(flows.entries)[(f, t, flow.name) := flow]
                          && devices.entries[t].inputs.entries == old(devices.entries[t].inputs.entries)[flow.name := flow]
                          && devices.entries[f].outputs.entries == old(devices.entries[f].outputs.entries)[flow.name := flow]
      ensures forall n :: n in devices.entries && (o.Fail? || n != t) ==>
                devices.entries[n].inputs == old(devices.entries[n].inputs)
      ensures forall n :: n in devices.entries && (o.Fail? || n != f) ==>
                devices.entries[n].outputs == old(devices.entries[n].outputs)
    {
      if f !in devices.entries {
        return Fail("Cannot add flow to " + f + ". Device does not exist.");
      }
      if t !in devices.entries {
        return Fail("Cannot add flow to " + t + ". Device does not exist.");
      }
      var key := (f, t, flow.name);
      if key in flows.entries {
        return Fail(flow.name + " flow between devices " + f + " and " + t + " already exists.");
      }
      var destination := devices.entries[t];
      var source := devices.entries[f];
      PutKeepsValid(flows, key, flow);
      flows := Put(flows, key, flow);
      Wire(source, destination, flow);
      o := Pass;
    }

    /** The flow joins the destination's inputs and the source's outputs. */
    static method Wire(source: Device, destination: Device, flow: Flow)
      modifies source`outputs, destination`inputs
      ensures destination.inputs.entries == old(destination.inputs.entries)[flow.name := flow]
      ensures source.outputs.entries == old(source.outputs.entries)[flow.name := flow]
    {
      destination.AddInput(flow);
      source.AddOutput(flow);
    }

    /** `add_input`: a flow into the device from outside the system. */
    method AddInput(deviceName: string, flow: Flow) returns (o: Outcome)
      requires Valid()
      modifies this`devices, this`flows, DeviceSet()
      ensures Valid()
      ensures o.Pass? <==> deviceName in old(devices.entries)
                           && (deviceName + InputSuffix, deviceName, flow.name) !in old(flows.entries)
      ensures o.Pass? ==> GetInput(deviceName, flow.name) == Ok(flow)
                          && deviceName in devices.entries
                          && Get(devices.entries[deviceName].inputs, flow.name) == Some(flow)
      ensures o.Fail? ==> flows == old(flows)
    {
      BoundaryIsNew(deviceName, InputSuffix);
      o := AddFlow(None, Some(deviceName), flow);
    }

    /** `add_output`: a flow out of the device to outside the system. */
    method AddOutput(deviceName: string, flow: Flow) returns (o: Outcome)
      requires Valid()
      modifies this`devices, this`flows, DeviceSet()
      ensures Valid()
      ensures o.Pass? <==> deviceName in old(devices.entries)
                           && (deviceName, deviceName + OutputSuffix, flow.name) !in old(flows.entries)
      ensures o.Pass? ==> GetOutput(deviceName, flow.name) == Ok(flow)
                          && deviceName in devices.entries
                          && Get(devices.entries[deviceName].outputs, flow.name) == Some(flow)
      ensures o.Fail? ==> flows == old(flows)
    {
      BoundaryIsNew(deviceName, OutputSuffix);
      o := AddFlow(Some(deviceName), None, flow);
    }

    /** `get_flow`: the flow registered under the triple. */
    function GetFlow(from: string, to: string, flowName: string): (r: Result<Flow>)
      reads this
      ensures r.Err? <==> (from, to, flowName) !in flows.entries
      ensures r.Ok? ==> r.value == flows.entries[(from, to, flowName)]
    {
      match Get(flows, (from, to, flowName))
      case None => Err(flowName + " flow between devices " + from + " and " + to + " does not exist")
      case Some(fl) => Ok(fl)
    }

    /** `get_input`: the flow into the device from its input boundary device. */
    function GetInput(to: string, flowName: string): (r: Result<Flow>)
      reads this
      ensures r.Err? <==> (to + InputSuffix, to, flowName) !in flows.entries
      ensures r.Ok? ==> r.value == flows.entries[(to + InputSuffix, to, flowName)]
    {
      GetFlow(to + InputSuffix, to, flowName)
    }

    /** `get_output`: the flow out of the device to its output boundary device. */
    function GetOutput(from: string, flowName: string): (r: Result<Flow>)
      reads this
      ensures r.Err? <==> (from, from + OutputSuffix, flowName) !in flows.entries
      ensures r.Ok? ==> r.value == flows.entries[(from, from + OutputSuffix, flowName)]
    {
      GetFlow(from, from + OutputSuffix, flowName)
    }
  }

  /** A boundary device's name is never the name of the device it serves. */
  lemma BoundaryIsNew(deviceName: string, suffix: string)
    requires suffix != []
    ensures deviceName + suffix != deviceName
  {
    assert |deviceName + suffix| > |deviceName|;
  }

  /** The shared-flow scenario: after connecting two devices, changing the
      flow through the source device's outputs changes the flow the system
      returns, because both are one object. */
  method SharedFlowScenario() returns (before: Option<real>, after: Option<real>)
    ensures before == Some(1.0) && after == Some(2.0)
  {
    var plant, ab := ConnectedPair();
    var found := plant.GetFlow("Device A", "Device B", "mass flow ab");
    before := found.value.mass;
    var viaDevice := plant.devices.entries["Device A"].outputs.entries["mass flow ab"];
    viaDevice.mass := Some(2.0);
    found := plant.GetFlow("Device A", "Device B", "mass flow ab");
    after := found.value.mass;
  }

  /** The set-up of the scenario: two devices joined by one flow of mass 1. */
  method ConnectedPair() returns (plant: System, ab: Flow)
    ensures fresh(plant) && fresh(ab) && ab.mass == Some(1.0)
    ensures ("Device A", "Device B", "mass flow ab") in plant.flows.entries
            && plant.flows.entries[("Device A", "Device B", "mass flow ab")] == ab
    ensures "Device A" in plant.devices.entries
            && Get(plant.devices.entries["Device A"].outputs, "mass flow ab") == Some(ab)
  {
    plant := TwoDevices();
    ab := new Flow("mass flow ab", Some(1.0), None);
    var o := plant.AddFlow(Some("Device A"), Some("Device B"), ab);
  }

  /** A new plant holding the devices "Device A" and "Device B". */
  method TwoDevices() returns (plant: System)
    ensures fresh(plant) && plant.Valid() && plant.flows == Empty()
    ensures forall d :: d in plant.DeviceSet() ==> fresh(d)
    ensures "Device A" in plant.devices.entries && "Device B" in plant.devices.entries
  {
    plant := new System("Test System");
    var a := new Device("Device A");
    var b := new Device("Device B");
    NamesDiffer();
    var o := plant.AddDevice(a);
    o := plant.AddDevice(b);
  }

  lemma NamesDiffer()
    ensures "Device A" != "Device B"
  {
    assert "Device A"[7] != "Device B"[7];
  }
}

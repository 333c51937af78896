/** The data model of the constraint network: wires, devices and the arena
    that owns them.  Wires and devices are addressed by their index in the
    arena; the external authority Device::USER is the device at index 0. */
module Circuit {

  datatype Option<T> = None | Some(value: T)

  type WireId = nat
  type DeviceRef = nat

  /** Device::USER, compared by identity (its index), never by kind. */
  const USER: DeviceRef := 0

  /** What a device does when one of its wires changes.  Inert is the base
      Device, whose two reactions do nothing (Device::USER is one). */
  datatype Device =
    | Inert
    | Printer
    | Adder(addend1: WireId, addend2: WireId, sum: WireId)
    | Negater(input: WireId, output: WireId)

  /** A wire: its optional signal, the device credited with it (None is the
      null emitter), and the devices observing it in registration order. */
  datatype Wire = Wire(name: string, signal: Option<int>, emitter: Option<DeviceRef>,
                       constraints: seq<DeviceRef>)

  /** A line the printing device writes to the console. */
  datatype Event = NewValue(wire: string, value: int) | ForgetValue(wire: string)

  /** Conflict is the runtime_error thrown by set_signal; DepthExceeded marks
      a cascade nested deeper than the fuel the model was given. */
  datatype Error = Conflict | DepthExceeded
  datatype Outcome = Ok | Failed(error: Error)

  /** The whole arena: every wire, every device, and the console output. */
  datatype State = State(wires: seq<Wire>, devices: seq<Device>, log: seq<Event>)

  /** A value a relation device decides to write to one of its wires. */
  datatype Write = Write(target: WireId, value: int)

  /** The authority rule: a USER-credited wire refuses every other writer. */
  predicate Rejects(x: Wire, d: DeviceRef) {
    x.emitter == Some(USER) && d != USER
  }

  predicate ObserversIn(lsns: seq<DeviceRef>, n: nat) {
    forall k :: 0 <= k < |lsns| ==> lsns[k] < n
  }

  /** Every wire a device is bound to exists. */
  predicate Attached(d: Device, n: nat) {
    match d
    case Adder(a1, a2, sum) => a1 < n && a2 < n && sum < n
    case Negater(i, o) => i < n && o < n
    case _ => true
  }

  /** A signal is always credited to someone, and observers exist. */
  predicate WireOk(x: Wire, n: nat) {
    (x.signal.Some? ==> x.emitter.Some?) && ObserversIn(x.constraints, n)
  }

  predicate Valid(s: State) {
    && |s.devices| > 0
    && s.devices[USER] == Inert
    && (forall k :: 0 <= k < |s.devices| ==> Attached(s.devices[k], |s.wires|))
    && (forall x :: 0 <= x < |s.wires| ==> WireOk(s.wires[x], |s.devices|))
  }

  /** Overwrite the signal and emitter of wire w, nothing else. */
  function Assign(s: State, w: WireId, signal: Option<int>, emitter: Option<DeviceRef>): State
    requires w < |s.wires|
  {
    s.(wires := s.wires[w := s.wires[w].(signal := signal, emitter := emitter)])
  }

  /** A cascade never creates or destroys wires or devices, never renames a
      wire and never changes who observes it. */
  predicate SameShape(s: State, t: State) {
    && t.devices == s.devices
    && |t.wires| == |s.wires|
    && (forall x :: 0 <= x < |s.wires| ==>
          t.wires[x].name == s.wires[x].name && t.wires[x].constraints == s.wires[x].constraints)
  }

  /** Every wire that was set is still set. */
  predicate NoRetraction(s: State, t: State)
    requires |t.wires| == |s.wires|
  {
    forall x :: 0 <= x < |s.wires| && s.wires[x].signal.Some? ==> t.wires[x].signal.Some?
  }

  /** Every USER-credited wire outside `exempt` keeps its signal and emitter. */
  predicate UserOwnedKept(s: State, t: State, exempt: set<WireId>)
    requires |t.wires| == |s.wires|
  {
    forall x :: 0 <= x < |s.wires| && x !in exempt && s.wires[x].emitter == Some(USER) ==>
      t.wires[x].signal == s.wires[x].signal && t.wires[x].emitter == s.wires[x].emitter
  }
}

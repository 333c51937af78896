/** The engine as the C++ runs it: one arena object whose wires are updated
    in place, and mutually recursive mutators and reactions that loop over the
    observers and call back into each other.  Each method is proved to do
    exactly what the reference semantics in module Propagation says. */
module Engine {
  import opened Circuit
  import opened Rules
  import P = Propagation

  class Network {
    var wires: seq<Wire>
    var devices: seq<Device>
    var log: seq<Event>

    /** The arena as a value. */
    function Snapshot(): State
      reads this
    {
      State(wires, devices, log)
    }

    ghost predicate Valid()
      reads this
    {
      Circuit.Valid(Snapshot())
    }

    /** An arena that holds Device::USER and nothing else. */
    constructor ()
      ensures Valid() && wires == [] && devices == [Inert] && log == []
    {
      wires := [];
      devices := [Inert];
      log := [];
    }

    method NewWire(name: string) returns (w: WireId)
      requires Valid()
      modifies this
      ensures Valid() && w == |old(wires)| && Snapshot() == P.NewWire(old(Snapshot()), name)
    {
      w := |wires|;
      wires := wires + [Wire(name, None, None, [])];
    }

    /** A PrintDevice, registered with no wire yet. */
    method NewPrinter() returns (d: DeviceRef)
      requires Valid()
      modifies this
      ensures Valid() && d == |old(devices)| && Snapshot() == P.NewDevice(old(Snapshot()), Printer)
    {
      d := |devices|;
      devices := devices + [Printer];
    }

    method NewAdder(a1: WireId, a2: WireId, sum: WireId, fuel: nat) returns (d: DeviceRef, r: Outcome)
      requires Valid() && a1 < |wires| && a2 < |wires| && sum < |wires|
      modifies this
      ensures Valid() && d == |old(devices)|
      ensures P.Step(Snapshot(), r) == P.NewAdder(old(Snapshot()), a1, a2, sum, fuel)
    {
      d := |devices|;
      devices := devices + [Adder(a1, a2, sum)];
      r := AddConstraint(a1, d, fuel);
      if r.Failed? { return; }
      r := AddConstraint(a2, d, fuel);
      if r.Failed? { return; }
      r := AddConstraint(sum, d, fuel);
    }

    method NewNegater(i: WireId, o: WireId, fuel: nat) returns (d: DeviceRef, r: Outcome)
      requires Valid() && i < |wires| && o < |wires|
      modifies this
      ensures Valid() && d == |old(devices)|
      ensures P.Step(Snapshot(), r) == P.NewNegater(old(Snapshot()), i, o, fuel)
    {
      d := |devices|;
      devices := devices + [Negater(i, o)];
      r := AddConstraint(i, d, fuel);
      if r.Failed? { return; }
      r := AddConstraint(o, d, fuel);
    }

    /** Wire::is_set. */
    method IsSet(w: WireId) returns (b: bool)
      requires w < |wires|
      ensures b <==> Rules.IsSet(wires, w)
    {
      b := wires[w].signal.Some?;
    }

    /** Wire::get_signal and Wire::operator*: they dereference the optional,
        so the wire must be set. */
    method GetSignal(w: WireId) returns (v: int)
      requires w < |wires| && wires[w].signal.Some?
      ensures wires[w].signal == Some(v)
    {
      v := wires[w].signal.value;
    }

    /** Wire::set_signal. */
    method SetSignal(w: WireId, v: int, d: DeviceRef, fuel: nat) returns (r: Outcome)
      requires Valid() && w < |wires|
      modifies this
      ensures Valid() && P.Step(Snapshot(), r) == P.SetSignal(old(Snapshot()), w, v, d, fuel)
      decreases fuel, 4
    {
      if Rejects(wires[w], d) {
        return Failed(Conflict);
      }
      var lsns := wires[w].constraints;
      wires := wires[w := wires[w].(signal := Some(v), emitter := Some(d))];
      r := NotifyUpdate(w, d, lsns, fuel);
    }

    /** set_signal's loop: tell every observer in `lsns` but the writer,
        stopping at the first that throws. */
    method NotifyUpdate(w: WireId, d: DeviceRef, lsns: seq<DeviceRef>, fuel: nat) returns (r: Outcome)
      requires Valid() && w < |wires| && wires[w].signal.Some? && ObserversIn(lsns, |devices|)
      modifies this
      ensures Valid() && P.Step(Snapshot(), r) == P.NotifyUpdate(old(Snapshot()), w, d, lsns, fuel)
      decreases fuel, 3
    {
      ghost var start := Snapshot();
      var i := 0;
      while i < |lsns|
        invariant 0 <= i <= |lsns|
        invariant Valid() && |wires| == |start.wires| && devices == start.devices
        invariant wires[w].signal.Some?
        invariant P.NotifyUpdate(Snapshot(), w, d, lsns[i..], fuel) == P.NotifyUpdate(start, w, d, lsns, fuel)
      {
        assert lsns[i..][1..] == lsns[i + 1..];
        if lsns[i] != d {
          r := OnUpdate(lsns[i], Some(w), fuel);
          if r.Failed? {
            return;
          }
        }
        i := i + 1;
      }
      r := Ok;
    }

    /** Wire::reset_signal. */
    method ResetSignal(w: WireId, d: DeviceRef, fuel: nat) returns (r: Outcome)
      requires Valid() && w < |wires|
      modifies this
      ensures Valid() && P.Step(Snapshot(), r) == P.ResetSignal(old(Snapshot()), w, d, fuel)
      decreases fuel, 4
    {
      if Rejects(wires[w], d) {
        return Ok;
      }
      var lsns := wires[w].constraints;
      wires := wires[w := wires[w].(signal := None, emitter := Some(d))];
      r := NotifyForget(w, d, lsns, fuel);
      if r.Ok? && d == USER {
        wires := wires[w := wires[w].(emitter := None)];
      }
    }

    /** reset_signal's loop: tell every observer in `lsns` but the writer to
        forget, stopping at the first that throws. */
    method NotifyForget(w: WireId, d: DeviceRef, lsns: seq<DeviceRef>, fuel: nat) returns (r: Outcome)
      requires Valid() && w < |wires| && ObserversIn(lsns, |devices|)
      modifies this
      ensures Valid() && P.Step(Snapshot(), r) == P.NotifyForget(old(Snapshot()), w, d, lsns, fuel)
      decreases fuel, 3
    {
      ghost var start := Snapshot();
      var i := 0;
      while i < |lsns|
        invariant 0 <= i <= |lsns|
        invariant Valid() && |wires| == |start.wires| && devices == start.devices
        invariant P.NotifyForget(Snapshot(), w, d, lsns[i..], fuel) == P.NotifyForget(start, w, d, lsns, fuel)
      {
        assert lsns[i..][1..] == lsns[i + 1..];
        if lsns[i] != d {
          r := OnForget(lsns[i], w, fuel);
          if r.Failed? {
            return;
          }
        }
        i := i + 1;
      }
      r := Ok;
    }

    /** Wire::add_constraint. */
    method AddConstraint(w: WireId, d: DeviceRef, fuel: nat) returns (r: Outcome)
      requires Valid() && w < |wires| && d < |devices|
      modifies this
      ensures Valid() && P.Step(Snapshot(), r) == P.AddConstraint(old(Snapshot()), w, d, fuel)
    {
      wires := wires[w := wires[w].(constraints := wires[w].constraints + [d])];
      var known := IsSet(w);
      if known {
        r := OnUpdate(d, Some(w), fuel);
      } else {
        r := Ok;
      }
    }

    /** Device::on_update, dispatched on the kind of device `dev`. */
    method OnUpdate(dev: DeviceRef, cause: Option<WireId>, fuel: nat) returns (r: Outcome)
      requires Valid() && dev < |devices|
      requires cause.Some? ==> cause.value < |wires|
      requires devices[dev].Printer? ==> cause.Some? && wires[cause.value].signal.Some?
      modifies this
      ensures Valid() && P.Step(Snapshot(), r) == P.OnUpdate(old(Snapshot()), dev, cause, fuel)
      decreases fuel, 1
    {
      if devices[dev].Printer? {
        var x := cause.value;
        var v := GetSignal(x);
        log := log + [NewValue(wires[x].name, v)];
        return Ok;
      }
      match Rule(wires, devices[dev])
      case None =>
        r := Ok;
      case Some(wr) =>
        if fuel == 0 {
          r := Failed(DepthExceeded);
        } else {
          r := SetSignal(wr.target, wr.value, dev, fuel - 1);
        }
    }

    /** Device::on_forget, dispatched on the kind of device `dev`. */
    method OnForget(dev: DeviceRef, cause: WireId, fuel: nat) returns (r: Outcome)
      requires Valid() && dev < |devices| && cause < |wires|
      modifies this
      ensures Valid() && P.Step(Snapshot(), r) == P.OnForget(old(Snapshot()), dev, cause, fuel)
      decreases fuel, 2
    {
      match devices[dev]
      case Inert =>
        r := Ok;
      case Printer =>
        log := log + [ForgetValue(wires[cause].name)];
        r := Ok;
      case Adder(a1, a2, sum) =>
        r := ResetUnlessCause(a1, cause, dev, fuel);
        if r.Failed? { return; }
        r := ResetUnlessCause(a2, cause, dev, fuel);
        if r.Failed? { return; }
        r := ResetUnlessCause(sum, cause, dev, fuel);
        if r.Failed? { return; }
        r := OnUpdate(dev, None, fuel);
      case Negater(i, o) =>
        r := ResetUnlessCause(i, cause, dev, fuel);
        if r.Failed? { return; }
        r := ResetUnlessCause(o, cause, dev, fuel);
        if r.Failed? { return; }
        r := OnUpdate(dev, None, fuel);
    }

    /** One `if (w != x) x->reset_signal(this)` line of an on_forget. */
    method ResetUnlessCause(x: WireId, cause: WireId, dev: DeviceRef, fuel: nat) returns (r: Outcome)
      requires Valid() && x < |wires| && dev != USER
      modifies this
      ensures Valid() && P.Step(Snapshot(), r) == P.ResetUnlessCause(old(Snapshot()), x, cause, dev, fuel)
      decreases fuel, 1
    {
      if x == cause {
        r := Ok;
      } else if fuel == 0 {
        r := Failed(DepthExceeded);
      } else {
        r := ResetSignal(x, dev, fuel - 1);
      }
    }
  }
}

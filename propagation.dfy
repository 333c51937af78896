/** The reference semantics of the engine: what one call of a wire mutator or
    of a device reaction does to the whole arena, cascade included.  The
    recursion follows the C++ call stack; `fuel` bounds how deeply a reaction
    may call back into a wire mutator, since a cyclic network can recurse
    without end.  A failure aborts the rest of the cascade and keeps every
    write made before it. */
module Propagation {
  import opened Circuit
  import opened Rules

  /** The arena after a call, and how the call ended. */
  datatype Step = Step(net: State, out: Outcome)

  /** Wire::set_signal(v, d): refused under the authority rule; otherwise the
      signal and emitter are written first and then every observer except d
      is told, in registration order.  It never asks whether v is new. */
  function SetSignal(s: State, w: WireId, v: int, d: DeviceRef, fuel: nat): (r: Step)
    requires Valid(s) && w < |s.wires|
    ensures Valid(r.net) && SameShape(s, r.net) && NoRetraction(s, r.net)
    ensures UserOwnedKept(s, r.net, if d == USER then {w} else {})
    ensures Rejects(s.wires[w], d) ==> r == Step(s, Failed(Conflict))
    ensures !Rejects(s.wires[w], d) ==> r.net.wires[w].signal.Some?
    ensures !Rejects(s.wires[w], d) && d == USER ==>
              r.net.wires[w] == s.wires[w].(signal := Some(v), emitter := Some(USER))
    decreases fuel, 4, 0
  {
    if Rejects(s.wires[w], d) then Step(s, Failed(Conflict))
    else NotifyUpdate(Assign(s, w, Some(v), Some(d)), w, d, s.wires[w].constraints, fuel)
  }

  /** The notification loop of set_signal over the observers `lsns`. */
  function NotifyUpdate(s: State, w: WireId, d: DeviceRef, lsns: seq<DeviceRef>, fuel: nat): (r: Step)
    requires Valid(s) && w < |s.wires| && s.wires[w].signal.Some?
    requires ObserversIn(lsns, |s.devices|)
    ensures Valid(r.net) && SameShape(s, r.net) && NoRetraction(s, r.net)
    ensures UserOwnedKept(s, r.net, {})
    decreases fuel, 3, |lsns|
  {
    if lsns == [] then Step(s, Ok)
    else
      var r1 := if lsns[0] == d then Step(s, Ok) else OnUpdate(s, lsns[0], Some(w), fuel);
      if r1.out.Failed? then r1 else NotifyUpdate(r1.net, w, d, lsns[1..], fuel)
  }

  /** Wire::reset_signal(d): a silent no-op under the authority rule;
      otherwise the signal is cleared with d as emitter, every observer except
      d is told to forget, and only then, for d = USER, the emitter becomes
      null.  A failure in the cascade skips that last step. */
  function ResetSignal(s: State, w: WireId, d: DeviceRef, fuel: nat): (r: Step)
    requires Valid(s) && w < |s.wires|
    ensures Valid(r.net) && SameShape(s, r.net)
    ensures UserOwnedKept(s, r.net, if d == USER then {w} else {})
    ensures Rejects(s.wires[w], d) ==> r == Step(s, Ok)
    ensures d == USER ==>
              r.net.wires[w] == s.wires[w].(signal := None,
                                            emitter := if r.out.Ok? then None else Some(USER))
    decreases fuel, 4, 0
  {
    if Rejects(s.wires[w], d) then Step(s, Ok)
    else
      var r1 := NotifyForget(Assign(s, w, None, Some(d)), w, d, s.wires[w].constraints, fuel);
      if r1.out.Ok? && d == USER then
        Step(r1.net.(wires := r1.net.wires[w := r1.net.wires[w].(emitter := None)]), Ok)
      else r1
  }

  /** The notification loop of reset_signal over the observers `lsns`. */
  function NotifyForget(s: State, w: WireId, d: DeviceRef, lsns: seq<DeviceRef>, fuel: nat): (r: Step)
    requires Valid(s) && w < |s.wires| && ObserversIn(lsns, |s.devices|)
    ensures Valid(r.net) && SameShape(s, r.net)
    ensures UserOwnedKept(s, r.net, {})
    decreases fuel, 3, |lsns|
  {
    if lsns == [] then Step(s, Ok)
    else
      var r1 := if lsns[0] == d then Step(s, Ok) else OnForget(s, lsns[0], w, fuel);
      if r1.out.Failed? then r1 else NotifyForget(r1.net, w, d, lsns[1..], fuel)
  }

  /** Device::on_update, dispatched on the device's kind.  The printer reads
      the cause, which must therefore be set; the relations ignore the cause
      and make at most one write, with themselves as writer. */
  function OnUpdate(s: State, dev: DeviceRef, cause: Option<WireId>, fuel: nat): (r: Step)
    requires Valid(s) && dev < |s.devices|
    requires cause.Some? ==> cause.value < |s.wires|
    requires s.devices[dev].Printer? ==> cause.Some? && s.wires[cause.value].signal.Some?
    ensures Valid(r.net) && SameShape(s, r.net) && NoRetraction(s, r.net)
    ensures UserOwnedKept(s, r.net, {})
    ensures s.devices[dev].Printer? ==>
              r == Step(s.(log := s.log + [NewValue(s.wires[cause.value].name, s.wires[cause.value].signal.value)]), Ok)
    ensures !s.devices[dev].Printer? && Rule(s.wires, s.devices[dev]).None? ==> r == Step(s, Ok)
    ensures !s.devices[dev].Printer? && Rule(s.wires, s.devices[dev]).Some? && fuel == 0 ==>
              r == Step(s, Failed(DepthExceeded))
    ensures !s.devices[dev].Printer? && Rule(s.wires, s.devices[dev]).Some? && fuel > 0 ==>
              var wr := Rule(s.wires, s.devices[dev]).value;
              && (Rejects(s.wires[wr.target], dev) ==> r == Step(s, Failed(Conflict)))
              && (!Rejects(s.wires[wr.target], dev) ==> r.net.wires[wr.target].signal.Some?)
    decreases fuel, 1, 0
  {
    if s.devices[dev].Printer? then
      var x := s.wires[cause.value];
      Step(s.(log := s.log + [NewValue(x.name, x.signal.value)]), Ok)
    else
      match Rule(s.wires, s.devices[dev])
      case None => Step(s, Ok)
      case Some(wr) =>
        if fuel == 0 then Step(s, Failed(DepthExceeded))
        else SetSignal(s, wr.target, wr.value, dev, fuel - 1)
  }

  /** Device::on_forget: a relation resets each of its wires other than the
      cause, in declaration order, then re-derives through on_update(nullptr). */
  function OnForget(s: State, dev: DeviceRef, cause: WireId, fuel: nat): (r: Step)
    requires Valid(s) && dev < |s.devices| && cause < |s.wires|
    ensures Valid(r.net) && SameShape(s, r.net)
    ensures UserOwnedKept(s, r.net, {})
    decreases fuel, 2, 0
  {
    match s.devices[dev]
    case Inert => Step(s, Ok)
    case Printer => Step(s.(log := s.log + [ForgetValue(s.wires[cause].name)]), Ok)
    case Adder(a1, a2, sum) =>
      var r1 := ResetUnlessCause(s, a1, cause, dev, fuel);
      if r1.out.Failed? then r1 else
      var r2 := ResetUnlessCause(r1.net, a2, cause, dev, fuel);
      if r2.out.Failed? then r2 else
      var r3 := ResetUnlessCause(r2.net, sum, cause, dev, fuel);
      if r3.out.Failed? then r3 else OnUpdate(r3.net, dev, None, fuel)
    case Negater(i, o) =>
      var r1 := ResetUnlessCause(s, i, cause, dev, fuel);
      if r1.out.Failed? then r1 else
      var r2 := ResetUnlessCause(r1.net, o, cause, dev, fuel);
      if r2.out.Failed? then r2 else OnUpdate(r2.net, dev, None, fuel)
  }

  /** One `if (w != x) x->reset_signal(this)` line of an on_forget. */
  function ResetUnlessCause(s: State, x: WireId, cause: WireId, dev: DeviceRef, fuel: nat): (r: Step)
    requires Valid(s) && x < |s.wires| && dev != USER
    ensures Valid(r.net) && SameShape(s, r.net)
    ensures UserOwnedKept(s, r.net, {})
    ensures x == cause ==> r == Step(s, Ok)
    ensures x != cause && fuel == 0 ==> r == Step(s, Failed(DepthExceeded))
    ensures x != cause && fuel > 0 && Rejects(s.wires[x], dev) ==> r == Step(s, Ok)
    decreases fuel, 1, 0
  {
    if x == cause then Step(s, Ok)
    else if fuel == 0 then Step(s, Failed(DepthExceeded))
    else ResetSignal(s, x, dev, fuel - 1)
  }

  /** Wire::add_constraint(d): append d to the observers, then bring d up to
      date with one on_update exactly when the wire is already set. */
  function AddConstraint(s: State, w: WireId, d: DeviceRef, fuel: nat): (r: Step)
    requires Valid(s) && w < |s.wires| && d < |s.devices|
    ensures Valid(r.net) && r.net.devices == s.devices && |r.net.wires| == |s.wires|
    ensures r.net.wires[w].constraints == s.wires[w].constraints + [d]
    ensures forall x :: 0 <= x < |s.wires| && x != w ==>
              r.net.wires[x].constraints == s.wires[x].constraints
    ensures forall x :: 0 <= x < |s.wires| ==> r.net.wires[x].name == s.wires[x].name
    ensures NoRetraction(s, r.net) && UserOwnedKept(s, r.net, {})
    ensures s.wires[w].signal.None? ==>
              r == Step(s.(wires := s.wires[w := s.wires[w].(constraints := s.wires[w].constraints + [d])]), Ok)
  {
    var s1 := s.(wires := s.wires[w := s.wires[w].(constraints := s.wires[w].constraints + [d])]);
    if s1.wires[w].signal.Some? then OnUpdate(s1, d, Some(w), fuel) else Step(s1, Ok)
  }

  /** Wire(n): a new wire, unset, with no emitter and no observers. */
  function NewWire(s: State, name: string): (t: State)
    requires Valid(s)
    ensures Valid(t) && t.devices == s.devices && t.log == s.log
    ensures |t.wires| == |s.wires| + 1 && t.wires[..|s.wires|] == s.wires
    ensures t.wires[|s.wires|] == Wire(name, None, None, [])
  {
    s.(wires := s.wires + [Wire(name, None, None, [])])
  }

  /** A device that is not yet registered with any wire. */
  function NewDevice(s: State, d: Device): (t: State)
    requires Valid(s) && Attached(d, |s.wires|)
    ensures Valid(t) && t.wires == s.wires && t.log == s.log
    ensures t.devices == s.devices + [d]
  {
    s.(devices := s.devices + [d])
  }

  /** The Adder constructor: the new device registers with addend1, addend2
      and sum, in that order; a throwing registration ends the construction. */
  function NewAdder(s: State, a1: WireId, a2: WireId, sum: WireId, fuel: nat): (r: Step)
    requires Valid(s) && a1 < |s.wires| && a2 < |s.wires| && sum < |s.wires|
    ensures Valid(r.net) && r.net.devices == s.devices + [Adder(a1, a2, sum)]
    ensures |r.net.wires| == |s.wires| && NoRetraction(s, r.net) && UserOwnedKept(s, r.net, {})
    ensures r.out.Ok? && a1 != a2 && a1 != sum && a2 != sum ==>
              forall x :: 0 <= x < |s.wires| ==>
                r.net.wires[x].constraints ==
                  s.wires[x].constraints + (if x in {a1, a2, sum} then [|s.devices|] else [])
  {
    var k := |s.devices|;
    var r1 := AddConstraint(NewDevice(s, Adder(a1, a2, sum)), a1, k, fuel);
    if r1.out.Failed? then r1 else
    var r2 := AddConstraint(r1.net, a2, k, fuel);
    if r2.out.Failed? then r2 else AddConstraint(r2.net, sum, k, fuel)
  }

  /** The Negater constructor: the new device registers with in, then out. */
  function NewNegater(s: State, i: WireId, o: WireId, fuel: nat): (r: Step)
    requires Valid(s) && i < |s.wires| && o < |s.wires|
    ensures Valid(r.net) && r.net.devices == s.devices + [Negater(i, o)]
    ensures |r.net.wires| == |s.wires| && NoRetraction(s, r.net) && UserOwnedKept(s, r.net, {})
    ensures r.out.Ok? && i != o ==>
              forall x :: 0 <= x < |s.wires| ==>
                r.net.wires[x].constraints ==
                  s.wires[x].constraints + (if x == i || x == o then [|s.devices|] else [])
  {
    var k := |s.devices|;
    var r1 := AddConstraint(NewDevice(s, Negater(i, o)), i, k, fuel);
    if r1.out.Failed? then r1 else AddConstraint(r1.net, o, k, fuel)
  }
}

/** Properties of the reference semantics that relate a call to what its
    observers see.  The printing device makes notification visible: when
    every observer of a wire is passive, the console shows exactly which
    observers were told, in which order, and with which value. */
module Properties {
  import opened Circuit
  import opened Rules
  import opened Propagation

  /** Every observer that will be told, that is every one but the writer,
      is a device that never writes a wire. */
  predicate AllPassive(devices: seq<Device>, lsns: seq<DeviceRef>, writer: DeviceRef)
    requires ObserversIn(lsns, |devices|)
  {
    forall k :: 0 <= k < |lsns| ==>
      lsns[k] == writer || devices[lsns[k]].Inert? || devices[lsns[k]].Printer?
  }

  /** The lines printed when the observers `lsns` other than `writer` are
      told, in order: one copy of `e` per printing device. */
  function Announced(devices: seq<Device>, lsns: seq<DeviceRef>, writer: DeviceRef, e: Event): seq<Event>
    requires ObserversIn(lsns, |devices|)
  {
    if lsns == [] then []
    else (if lsns[0] != writer && devices[lsns[0]].Printer? then [e] else [])
         + Announced(devices, lsns[1..], writer, e)
  }

  /** The two passive kinds react to a forget without writing: the base
      device does nothing and the printer prints the forget. */
  lemma PassiveForget(s: State, dev: DeviceRef, cause: WireId, fuel: nat)
    requires Valid(s) && dev < |s.devices| && cause < |s.wires|
    ensures s.devices[dev].Inert? ==> OnForget(s, dev, cause, fuel) == Step(s, Ok)
    ensures s.devices[dev].Printer? ==>
              OnForget(s, dev, cause, fuel) == Step(s.(log := s.log + [ForgetValue(s.wires[cause].name)]), Ok)
  {
  }

  /** A relation device ignores the wire that caused its update: only the
      printer reads it. */
  lemma CauseIgnored(s: State, dev: DeviceRef, c1: Option<WireId>, c2: Option<WireId>, fuel: nat)
    requires Valid(s) && dev < |s.devices| && !s.devices[dev].Printer?
    requires c1.Some? ==> c1.value < |s.wires|
    requires c2.Some? ==> c2.value < |s.wires|
    ensures OnUpdate(s, dev, c1, fuel) == OnUpdate(s, dev, c2, fuel)
  {
  }

  lemma {:induction false} NotifyUpdatePassive(s: State, w: WireId, d: DeviceRef, lsns: seq<DeviceRef>, fuel: nat)
    requires Valid(s) && w < |s.wires| && s.wires[w].signal.Some?
    requires ObserversIn(lsns, |s.devices|) && AllPassive(s.devices, lsns, d)
    ensures NotifyUpdate(s, w, d, lsns, fuel) ==
            Step(s.(log := s.log + Announced(s.devices, lsns, d,
                                             NewValue(s.wires[w].name, s.wires[w].signal.value))), Ok)
    decreases |lsns|
  {
    if lsns != [] {
      var e := NewValue(s.wires[w].name, s.wires[w].signal.value);
      var s1 := if lsns[0] != d && s.devices[lsns[0]].Printer? then s.(log := s.log + [e]) else s;
      assert lsns[0] != d ==> OnUpdate(s, lsns[0], Some(w), fuel) == Step(s1, Ok);
      NotifyUpdatePassive(s1, w, d, lsns[1..], fuel);
    }
  }

  lemma {:induction false} NotifyForgetPassive(s: State, w: WireId, d: DeviceRef, lsns: seq<DeviceRef>, fuel: nat)
    requires Valid(s) && w < |s.wires|
    requires ObserversIn(lsns, |s.devices|) && AllPassive(s.devices, lsns, d)
    ensures NotifyForget(s, w, d, lsns, fuel) ==
            Step(s.(log := s.log + Announced(s.devices, lsns, d, ForgetValue(s.wires[w].name))), Ok)
    decreases |lsns|
  {
    if lsns != [] {
      var e := ForgetValue(s.wires[w].name);
      var s1 := if lsns[0] != d && s.devices[lsns[0]].Printer? then s.(log := s.log + [e]) else s;
      assert lsns[0] != d ==> OnForget(s, lsns[0], w, fuel) == Step(s1, Ok);
      NotifyForgetPassive(s1, w, d, lsns[1..], fuel);
    }
  }

  /** Adder::on_update with only passive observers on the wire it derives:
      the rule's value lands on the rule's target, credited to the adder,
      nothing else changes but the printers' output, and the sum holds. */
  lemma AdderReacts(s: State, dev: DeviceRef, cause: Option<WireId>, fuel: nat)
    requires Valid(s) && dev < |s.devices| && s.devices[dev].Adder?
    requires cause.Some? ==> cause.value < |s.wires|
    requires var a := s.devices[dev]; a.addend1 != a.addend2 && a.addend1 != a.sum && a.addend2 != a.sum
    requires fuel > 0 && Rule(s.wires, s.devices[dev]).Some?
    requires var wr := Rule(s.wires, s.devices[dev]).value;
             !Rejects(s.wires[wr.target], dev) && AllPassive(s.devices, s.wires[wr.target].constraints, dev)
    ensures var wr := Rule(s.wires, s.devices[dev]).value;
            var r := OnUpdate(s, dev, cause, fuel);
            var a := s.devices[dev];
            && r.out == Ok
            && r.net.wires == Assign(s, wr.target, Some(wr.value), Some(dev)).wires
            && SumHolds(r.net.wires, a.addend1, a.addend2, a.sum)
  {
    var wr := Rule(s.wires, s.devices[dev]).value;
    NotifyUpdatePassive(Assign(s, wr.target, Some(wr.value), Some(dev)), wr.target, dev,
                        s.wires[wr.target].constraints, fuel - 1);
  }

  /** Negater::on_update with only passive observers on the wire it derives:
      the rule's value lands on the rule's target, credited to the negater,
      and the output is the negation of the input. */
  lemma NegaterReacts(s: State, dev: DeviceRef, cause: Option<WireId>, fuel: nat)
    requires Valid(s) && dev < |s.devices| && s.devices[dev].Negater?
    requires cause.Some? ==> cause.value < |s.wires|
    requires s.devices[dev].input != s.devices[dev].output
    requires fuel > 0 && Rule(s.wires, s.devices[dev]).Some?
    requires var wr := Rule(s.wires, s.devices[dev]).value;
             !Rejects(s.wires[wr.target], dev) && AllPassive(s.devices, s.wires[wr.target].constraints, dev)
    ensures var wr := Rule(s.wires, s.devices[dev]).value;
            var r := OnUpdate(s, dev, cause, fuel);
            && r.out == Ok
            && r.net.wires == Assign(s, wr.target, Some(wr.value), Some(dev)).wires
            && NegationHolds(r.net.wires, s.devices[dev].input, s.devices[dev].output)
  {
    var wr := Rule(s.wires, s.devices[dev]).value;
    NotifyUpdatePassive(Assign(s, wr.target, Some(wr.value), Some(dev)), wr.target, dev,
                        s.wires[wr.target].constraints, fuel - 1);
  }

  /** set_signal writes the signal and emitter before notifying, so each
      printer among the observers, the writer excepted, prints the new value,
      in registration order; it does so even when the value is unchanged. */
  lemma SetSignalAnnounces(s: State, w: WireId, v: int, d: DeviceRef, fuel: nat)
    requires Valid(s) && w < |s.wires| && !Rejects(s.wires[w], d)
    requires AllPassive(s.devices, s.wires[w].constraints, d)
    ensures SetSignal(s, w, v, d, fuel) ==
            Step(Assign(s, w, Some(v), Some(d)).(log := s.log + Announced(s.devices, s.wires[w].constraints, d,
                                                                           NewValue(s.wires[w].name, v))), Ok)
  {
    NotifyUpdatePassive(Assign(s, w, Some(v), Some(d)), w, d, s.wires[w].constraints, fuel);
  }

  /** reset_signal clears the signal, tells each printer among the observers
      except the writer, in order, and clears the emitter when the writer is
      USER. */
  lemma ResetSignalAnnounces(s: State, w: WireId, d: DeviceRef, fuel: nat)
    requires Valid(s) && w < |s.wires| && !Rejects(s.wires[w], d)
    requires AllPassive(s.devices, s.wires[w].constraints, d)
    ensures ResetSignal(s, w, d, fuel) ==
            Step(Assign(s, w, None, if d == USER then None else Some(d))
                   .(log := s.log + Announced(s.devices, s.wires[w].constraints, d, ForgetValue(s.wires[w].name))), Ok)
  {
    NotifyForgetPassive(Assign(s, w, None, Some(d)), w, d, s.wires[w].constraints, fuel);
  }

  /** A printer registered late prints the wire's current value once, at
      registration, exactly when the wire is set; nothing else changes. */
  lemma LateRegistration(s: State, w: WireId, d: DeviceRef, fuel: nat)
    requires Valid(s) && w < |s.wires| && d < |s.devices| && s.devices[d].Printer?
    ensures var r := AddConstraint(s, w, d, fuel);
            && r.out == Ok
            && (forall x :: 0 <= x < |s.wires| ==>
                  r.net.wires[x].signal == s.wires[x].signal && r.net.wires[x].emitter == s.wires[x].emitter)
            && r.net.log == s.log + (if s.wires[w].signal.Some?
                                     then [NewValue(s.wires[w].name, s.wires[w].signal.value)] else [])
  {
  }

  /** Once USER has cleared a wire and the cascade has completed, the wire is
      unset and any device may write it. */
  lemma UserResetReleases(s: State, w: WireId, dev: DeviceRef, fuel: nat)
    requires Valid(s) && w < |s.wires|
    ensures var r := ResetSignal(s, w, USER, fuel);
            r.out.Ok? ==> !Rejects(r.net.wires[w], dev) && r.net.wires[w].signal.None?
  {
  }
}

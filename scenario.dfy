/** The network and the stimuli of eval.cc's main: wires a1, a2, na2, sum,
    a printer on each, Negater(a2, na2) and Adder(a1, na2, sum); then, all by
    USER, set a1, set a2, reset a2, set sum.  The values are left symbolic:
    p, q and t stand for main's 5, 6 and 8. */
module Scenario {
  import opened Circuit
  import opened Rules
  import opened Propagation

  const A1: WireId := 0
  const A2: WireId := 1
  const NA2: WireId := 2
  const SUM: WireId := 3
  const PRINT: DeviceRef := 1
  const NEG: DeviceRef := 2
  const ADD: DeviceRef := 3

  /** main's arena, given the signal and emitter of each wire and the output. */
  function Net(a1: Option<int>, e1: Option<DeviceRef>, a2: Option<int>, e2: Option<DeviceRef>,
               na2: Option<int>, e3: Option<DeviceRef>, sum: Option<int>, e4: Option<DeviceRef>,
               log: seq<Event>): State
  {
    State([Wire("a1", a1, e1, [PRINT, ADD]),
           Wire("a2", a2, e2, [PRINT, NEG]),
           Wire("na2", na2, e3, [PRINT, NEG, ADD]),
           Wire("sum", sum, e4, [PRINT, ADD])],
          [Inert, Printer, Negater(A2, NA2), Adder(A1, NA2, SUM)],
          log)
  }

  /** The arena once main has built the network. */
  function Wired(): State {
    Net(None, None, None, None, None, None, None, None, [])
  }

  const U := Some(USER)

  function Log1(p: int): seq<Event> {
    [NewValue("a1", p)]
  }

  function Log2(p: int, q: int): seq<Event> {
    Log1(p) + [NewValue("a2", q), NewValue("na2", -q), NewValue("sum", p - q)]
  }

  function Log3(p: int, q: int): seq<Event> {
    Log2(p, q) + [ForgetValue("a2"), ForgetValue("na2"), ForgetValue("sum")]
  }

  function Log4(p: int, q: int, t: int): seq<Event> {
    Log3(p, q) + [NewValue("sum", t), NewValue("na2", t - p), NewValue("a2", p - t)]
  }

  /** set a1: the adder knows only one of its wires and derives nothing. */
  lemma SetA1(p: int, fuel: nat)
    ensures SetSignal(Wired(), A1, p, USER, fuel) ==
            Step(Net(Some(p), U, None, None, None, None, None, None, Log1(p)), Ok)
  {
    var s1 := Assign(Wired(), A1, Some(p), U);
    var s2 := s1.(log := Log1(p));
    assert OnUpdate(s1, PRINT, Some(A1), fuel) == Step(s2, Ok);
    assert OnUpdate(s2, ADD, Some(A1), fuel) == Step(s2, Ok);
    assert NotifyUpdate(s2, A1, USER, [ADD], fuel) == Step(s2, Ok);
  }

  /** Inside set a2: the adder's write of sum. */
  lemma SetA2Sum(p: int, q: int, fuel: nat)
    ensures SetSignal(Net(Some(p), U, Some(q), U, Some(-q), Some(NEG), None, None,
                          Log1(p) + [NewValue("a2", q), NewValue("na2", -q)]), SUM, p - q, ADD, fuel) ==
            Step(Net(Some(p), U, Some(q), U, Some(-q), Some(NEG), Some(p - q), Some(ADD), Log2(p, q)), Ok)
  {
    var s0 := Net(Some(p), U, Some(q), U, Some(-q), Some(NEG), None, None,
                  Log1(p) + [NewValue("a2", q), NewValue("na2", -q)]);
    var s1 := Net(Some(p), U, Some(q), U, Some(-q), Some(NEG), Some(p - q), Some(ADD), s0.log);
    var s2 := s1.(log := Log2(p, q));
    assert Assign(s0, SUM, Some(p - q), Some(ADD)) == s1;
    assert OnUpdate(s1, PRINT, Some(SUM), fuel) == Step(s2, Ok);
    assert NotifyUpdate(s2, SUM, ADD, [ADD], fuel) == Step(s2, Ok);
  }

  /** Inside set a2: the negater's write of na2, and what it sets off. */
  lemma SetA2Na2(p: int, q: int, fuel: nat)
    requires fuel >= 1
    ensures SetSignal(Net(Some(p), U, Some(q), U, None, None, None, None, Log1(p) + [NewValue("a2", q)]),
                      NA2, -q, NEG, fuel) ==
            Step(Net(Some(p), U, Some(q), U, Some(-q), Some(NEG), Some(p - q), Some(ADD), Log2(p, q)), Ok)
  {
    var s0 := Net(Some(p), U, Some(q), U, None, None, None, None, Log1(p) + [NewValue("a2", q)]);
    var s1 := Net(Some(p), U, Some(q), U, Some(-q), Some(NEG), None, None, s0.log);
    var s2 := s1.(log := s0.log + [NewValue("na2", -q)]);
    var s3 := Net(Some(p), U, Some(q), U, Some(-q), Some(NEG), Some(p - q), Some(ADD), Log2(p, q));
    assert Assign(s0, NA2, Some(-q), Some(NEG)) == s1;
    assert OnUpdate(s1, PRINT, Some(NA2), fuel) == Step(s2, Ok);
    assert s2 == Net(Some(p), U, Some(q), U, Some(-q), Some(NEG), None, None,
                     Log1(p) + [NewValue("a2", q), NewValue("na2", -q)]);
    assert Rule(s2.wires, s2.devices[ADD]) == Some(Write(SUM, p - q));
    SetA2Sum(p, q, fuel - 1);
    assert OnUpdate(s2, ADD, Some(NA2), fuel) == Step(s3, Ok);
    assert NotifyUpdate(s2, NA2, NEG, [ADD], fuel) == Step(s3, Ok);
    assert [NEG, ADD][1..] == [ADD];
    assert NotifyUpdate(s2, NA2, NEG, [NEG, ADD], fuel) == Step(s3, Ok);
    assert [PRINT, NEG, ADD][1..] == [NEG, ADD];
    assert NotifyUpdate(s1, NA2, NEG, [PRINT, NEG, ADD], fuel) == Step(s3, Ok);
  }

  /** set a2: the negater derives na2, which lets the adder derive sum. */
  lemma SetA2(p: int, q: int, fuel: nat)
    requires fuel >= 2
    ensures SetSignal(Net(Some(p), U, None, None, None, None, None, None, Log1(p)), A2, q, USER, fuel) ==
            Step(Net(Some(p), U, Some(q), U, Some(-q), Some(NEG), Some(p - q), Some(ADD), Log2(p, q)), Ok)
  {
    var s0 := Net(Some(p), U, None, None, None, None, None, None, Log1(p));
    var s1 := Net(Some(p), U, Some(q), U, None, None, None, None, Log1(p));
    var s2 := s1.(log := Log1(p) + [NewValue("a2", q)]);
    var s3 := Net(Some(p), U, Some(q), U, Some(-q), Some(NEG), Some(p - q), Some(ADD), Log2(p, q));
    assert Assign(s0, A2, Some(q), U) == s1;
    assert OnUpdate(s1, PRINT, Some(A2), fuel) == Step(s2, Ok);
    assert Rule(s2.wires, s2.devices[NEG]) == Some(Write(NA2, -q));
    SetA2Na2(p, q, fuel - 1);
    assert OnUpdate(s2, NEG, Some(A2), fuel) == Step(s3, Ok);
    assert NotifyUpdate(s2, A2, USER, [NEG], fuel) == Step(s3, Ok);
  }

  /** Inside reset a2: the adder's reset of sum. */
  lemma ResetA2Sum(p: int, q: int, fuel: nat)
    ensures ResetSignal(Net(Some(p), U, None, U, None, Some(NEG), Some(p - q), Some(ADD),
                            Log2(p, q) + [ForgetValue("a2"), ForgetValue("na2")]), SUM, ADD, fuel) ==
            Step(Net(Some(p), U, None, U, None, Some(NEG), None, Some(ADD), Log3(p, q)), Ok)
  {
    var s0 := Net(Some(p), U, None, U, None, Some(NEG), Some(p - q), Some(ADD),
                  Log2(p, q) + [ForgetValue("a2"), ForgetValue("na2")]);
    var s1 := Net(Some(p), U, None, U, None, Some(NEG), None, Some(ADD), s0.log);
    var s2 := s1.(log := Log3(p, q));
    assert Assign(s0, SUM, None, Some(ADD)) == s1;
    assert OnForget(s1, PRINT, SUM, fuel) == Step(s2, Ok);
    assert NotifyForget(s2, SUM, ADD, [ADD], fuel) == Step(s2, Ok);
  }

  /** Inside reset a2: the negater's reset of na2, and what it sets off.  The
      adder's reset of a1 is refused silently, since USER set a1. */
  lemma ResetA2Na2(p: int, q: int, fuel: nat)
    requires fuel >= 1
    ensures ResetSignal(Net(Some(p), U, None, U, Some(-q), Some(NEG), Some(p - q), Some(ADD),
                            Log2(p, q) + [ForgetValue("a2")]), NA2, NEG, fuel) ==
            Step(Net(Some(p), U, None, U, None, Some(NEG), None, Some(ADD), Log3(p, q)), Ok)
  {
    var s0 := Net(Some(p), U, None, U, Some(-q), Some(NEG), Some(p - q), Some(ADD),
                  Log2(p, q) + [ForgetValue("a2")]);
    var s1 := Net(Some(p), U, None, U, None, Some(NEG), Some(p - q), Some(ADD), s0.log);
    var s2 := Net(Some(p), U, None, U, None, Some(NEG), Some(p - q), Some(ADD),
                  Log2(p, q) + [ForgetValue("a2"), ForgetValue("na2")]);
    var s3 := Net(Some(p), U, None, U, None, Some(NEG), None, Some(ADD), Log3(p, q));
    assert Assign(s0, NA2, None, Some(NEG)) == s1;
    assert OnForget(s1, PRINT, NA2, fuel) == Step(s2, Ok);
    assert ResetUnlessCause(s2, A1, NA2, ADD, fuel) == Step(s2, Ok);
    assert ResetUnlessCause(s2, NA2, NA2, ADD, fuel) == Step(s2, Ok);
    ResetA2Sum(p, q, fuel - 1);
    assert ResetUnlessCause(s2, SUM, NA2, ADD, fuel) == Step(s3, Ok);
    assert Rule(s3.wires, s3.devices[ADD]) == None;
    assert OnUpdate(s3, ADD, None, fuel) == Step(s3, Ok);
    assert OnForget(s2, ADD, NA2, fuel) == Step(s3, Ok);
    assert NotifyForget(s2, NA2, NEG, [ADD], fuel) == Step(s3, Ok);
    assert [NEG, ADD][1..] == [ADD];
    assert NotifyForget(s2, NA2, NEG, [NEG, ADD], fuel) == Step(s3, Ok);
    assert [PRINT, NEG, ADD][1..] == [NEG, ADD];
    assert NotifyForget(s1, NA2, NEG, [PRINT, NEG, ADD], fuel) == Step(s3, Ok);
  }

  /** reset a2: na2 and sum were inferred, so both are forgotten; a1 stays,
      and a2 ends with a null emitter. */
  lemma ResetA2(p: int, q: int, fuel: nat)
    requires fuel >= 2
    ensures ResetSignal(Net(Some(p), U, Some(q), U, Some(-q), Some(NEG), Some(p - q), Some(ADD), Log2(p, q)),
                        A2, USER, fuel) ==
            Step(Net(Some(p), U, None, None, None, Some(NEG), None, Some(ADD), Log3(p, q)), Ok)
  {
    var s0 := Net(Some(p), U, Some(q), U, Some(-q), Some(NEG), Some(p - q), Some(ADD), Log2(p, q));
    var s1 := Net(Some(p), U, None, U, Some(-q), Some(NEG), Some(p - q), Some(ADD), Log2(p, q));
    var s2 := s1.(log := Log2(p, q) + [ForgetValue("a2")]);
    var s3 := Net(Some(p), U, None, U, None, Some(NEG), None, Some(ADD), Log3(p, q));
    assert Assign(s0, A2, None, U) == s1;
    assert OnForget(s1, PRINT, A2, fuel) == Step(s2, Ok);
    assert ResetUnlessCause(s2, A2, A2, NEG, fuel) == Step(s2, Ok);
    ResetA2Na2(p, q, fuel - 1);
    assert ResetUnlessCause(s2, NA2, A2, NEG, fuel) == Step(s3, Ok);
    assert Rule(s3.wires, s3.devices[NEG]) == None;
    assert OnUpdate(s3, NEG, None, fuel) == Step(s3, Ok);
    assert OnForget(s2, NEG, A2, fuel) == Step(s3, Ok);
    assert NotifyForget(s2, A2, USER, [NEG], fuel) == Step(s3, Ok);
    assert NotifyForget(s1, A2, USER, [PRINT, NEG], fuel) == Step(s3, Ok);
  }

  /** Inside set sum: the negater's write of a2. */
  lemma SetSumA2(p: int, q: int, t: int, fuel: nat)
    ensures SetSignal(Net(Some(p), U, None, None, Some(t - p), Some(ADD), Some(t), U,
                          Log3(p, q) + [NewValue("sum", t), NewValue("na2", t - p)]), A2, -(t - p), NEG, fuel) ==
            Step(Net(Some(p), U, Some(p - t), Some(NEG), Some(t - p), Some(ADD), Some(t), U, Log4(p, q, t)), Ok)
  {
    var s0 := Net(Some(p), U, None, None, Some(t - p), Some(ADD), Some(t), U,
                  Log3(p, q) + [NewValue("sum", t), NewValue("na2", t - p)]);
    var s1 := Net(Some(p), U, Some(p - t), Some(NEG), Some(t - p), Some(ADD), Some(t), U, s0.log);
    var s2 := s1.(log := Log4(p, q, t));
    assert Assign(s0, A2, Some(-(t - p)), Some(NEG)) == s1;
    assert OnUpdate(s1, PRINT, Some(A2), fuel) == Step(s2, Ok);
    assert NotifyUpdate(s2, A2, NEG, [NEG], fuel) == Step(s2, Ok);
  }

  /** Inside set sum: the adder's write of na2, and what it sets off. */
  lemma SetSumNa2(p: int, q: int, t: int, fuel: nat)
    requires fuel >= 1
    ensures SetSignal(Net(Some(p), U, None, None, None, Some(NEG), Some(t), U,
                          Log3(p, q) + [NewValue("sum", t)]), NA2, t - p, ADD, fuel) ==
            Step(Net(Some(p), U, Some(p - t), Some(NEG), Some(t - p), Some(ADD), Some(t), U, Log4(p, q, t)), Ok)
  {
    var s0 := Net(Some(p), U, None, None, None, Some(NEG), Some(t), U, Log3(p, q) + [NewValue("sum", t)]);
    var s1 := Net(Some(p), U, None, None, Some(t - p), Some(ADD), Some(t), U, s0.log);
    var s2 := Net(Some(p), U, None, None, Some(t - p), Some(ADD), Some(t), U,
                  Log3(p, q) + [NewValue("sum", t), NewValue("na2", t - p)]);
    var s3 := Net(Some(p), U, Some(p - t), Some(NEG), Some(t - p), Some(ADD), Some(t), U, Log4(p, q, t));
    assert Assign(s0, NA2, Some(t - p), Some(ADD)) == s1;
    assert OnUpdate(s1, PRINT, Some(NA2), fuel) == Step(s2, Ok);
    assert Rule(s2.wires, s2.devices[NEG]) == Some(Write(A2, -(t - p)));
    SetSumA2(p, q, t, fuel - 1);
    assert OnUpdate(s2, NEG, Some(NA2), fuel) == Step(s3, Ok);
    assert NotifyUpdate(s3, NA2, ADD, [ADD], fuel) == Step(s3, Ok);
    assert [NEG, ADD][1..] == [ADD];
    assert NotifyUpdate(s2, NA2, ADD, [NEG, ADD], fuel) == Step(s3, Ok);
    assert [PRINT, NEG, ADD][1..] == [NEG, ADD];
    assert NotifyUpdate(s1, NA2, ADD, [PRINT, NEG, ADD], fuel) == Step(s3, Ok);
  }

  /** set sum: the adder derives na2 = sum - a1, and the negater a2 = -na2;
      both are credited to the devices, not to USER. */
  lemma SetSum(p: int, q: int, t: int, fuel: nat)
    requires fuel >= 2
    ensures SetSignal(Net(Some(p), U, None, None, None, Some(NEG), None, Some(ADD), Log3(p, q)),
                      SUM, t, USER, fuel) ==
            Step(Net(Some(p), U, Some(p - t), Some(NEG), Some(t - p), Some(ADD), Some(t), U, Log4(p, q, t)), Ok)
  {
    var s0 := Net(Some(p), U, None, None, None, Some(NEG), None, Some(ADD), Log3(p, q));
    var s1 := Net(Some(p), U, None, None, None, Some(NEG), Some(t), U, Log3(p, q));
    var s2 := s1.(log := Log3(p, q) + [NewValue("sum", t)]);
    var s3 := Net(Some(p), U, Some(p - t), Some(NEG), Some(t - p), Some(ADD), Some(t), U, Log4(p, q, t));
    assert Assign(s0, SUM, Some(t), U) == s1;
    assert OnUpdate(s1, PRINT, Some(SUM), fuel) == Step(s2, Ok);
    assert Rule(s2.wires, s2.devices[ADD]) == Some(Write(NA2, t - p));
    SetSumNa2(p, q, t, fuel - 1);
    assert OnUpdate(s2, ADD, Some(SUM), fuel) == Step(s3, Ok);
    assert NotifyUpdate(s2, SUM, USER, [ADD], fuel) == Step(s3, Ok);
  }

  /** main's four wires, unset, observed by `c0` … `c3`, beside `devices`. */
  function Unwired(c0: seq<DeviceRef>, c1: seq<DeviceRef>, c2: seq<DeviceRef>, c3: seq<DeviceRef>,
                   devices: seq<Device>): State
  {
    State([Wire("a1", None, None, c0), Wire("a2", None, None, c1),
           Wire("na2", None, None, c2), Wire("sum", None, None, c3)], devices, [])
  }

  /** Registering with an unset wire only appends the observer. */
  lemma Register(c0: seq<DeviceRef>, c1: seq<DeviceRef>, c2: seq<DeviceRef>, c3: seq<DeviceRef>,
                 devices: seq<Device>, w: WireId, d: DeviceRef, fuel: nat)
    requires Valid(Unwired(c0, c1, c2, c3, devices)) && w < 4 && d < |devices|
    ensures AddConstraint(Unwired(c0, c1, c2, c3, devices), w, d, fuel) ==
            Step(Unwired(if w == 0 then c0 + [d] else c0, if w == 1 then c1 + [d] else c1,
                         if w == 2 then c2 + [d] else c2, if w == 3 then c3 + [d] else c3, devices), Ok)
  {
    var s := Unwired(c0, c1, c2, c3, devices);
    var t := Unwired(if w == 0 then c0 + [d] else c0, if w == 1 then c1 + [d] else c1,
                     if w == 2 then c2 + [d] else c2, if w == 3 then c3 + [d] else c3, devices);
    assert s.wires[w := s.wires[w].(constraints := s.wires[w].constraints + [d])] == t.wires;
  }

  /** main's construction phase: four wires, a printer registered on each,
      then Negater(a2, na2) and Adder(a1, na2, sum). */
  function Build(fuel: nat): State {
    var s0 := NewDevice(NewWire(NewWire(NewWire(NewWire(State([], [Inert], []), "a1"), "a2"), "na2"), "sum"),
                        Printer);
    var s1 := AddConstraint(s0, A1, PRINT, fuel).net;
    var s2 := AddConstraint(s1, A2, PRINT, fuel).net;
    var s3 := AddConstraint(s2, NA2, PRINT, fuel).net;
    var s4 := AddConstraint(s3, SUM, PRINT, fuel).net;
    var s5 := NewNegater(s4, A2, NA2, fuel).net;
    NewAdder(s5, A1, NA2, SUM, fuel).net
  }

  /** The printer's four registrations react to nothing. */
  lemma BuildPrinters(fuel: nat)
    ensures var ds := [Inert, Printer];
            var s1 := AddConstraint(Unwired([], [], [], [], ds), A1, PRINT, fuel).net;
            var s2 := AddConstraint(s1, A2, PRINT, fuel).net;
            var s3 := AddConstraint(s2, NA2, PRINT, fuel).net;
            AddConstraint(s3, SUM, PRINT, fuel).net == Unwired([PRINT], [PRINT], [PRINT], [PRINT], ds)
  {
    var ds := [Inert, Printer];
    var none: seq<DeviceRef> := [];
    assert none + [PRINT] == [PRINT];
    Register(none, none, none, none, ds, A1, PRINT, fuel);
    var s1 := Unwired([PRINT], none, none, none, ds);
    assert AddConstraint(Unwired(none, none, none, none, ds), A1, PRINT, fuel).net == s1;
    Register([PRINT], none, none, none, ds, A2, PRINT, fuel);
    var s2 := Unwired([PRINT], [PRINT], none, none, ds);
    assert AddConstraint(s1, A2, PRINT, fuel).net == s2;
    Register([PRINT], [PRINT], none, none, ds, NA2, PRINT, fuel);
    var s3 := Unwired([PRINT], [PRINT], [PRINT], none, ds);
    assert AddConstraint(s2, NA2, PRINT, fuel).net == s3;
    Register([PRINT], [PRINT], [PRINT], none, ds, SUM, PRINT, fuel);
  }

  /** The negater registers with a2, then na2, neither of them set. */
  lemma BuildNegater(fuel: nat)
    ensures NewNegater(Unwired([PRINT], [PRINT], [PRINT], [PRINT], [Inert, Printer]), A2, NA2, fuel) ==
            Step(Unwired([PRINT], [PRINT, NEG], [PRINT, NEG], [PRINT], [Inert, Printer, Negater(A2, NA2)]), Ok)
  {
    var dn := [Inert, Printer, Negater(A2, NA2)];
    var s4 := Unwired([PRINT], [PRINT], [PRINT], [PRINT], [Inert, Printer]);
    assert NewDevice(s4, Negater(A2, NA2)) == Unwired([PRINT], [PRINT], [PRINT], [PRINT], dn);
    assert [PRINT] + [NEG] == [PRINT, NEG];
    Register([PRINT], [PRINT], [PRINT], [PRINT], dn, A2, NEG, fuel);
    Register([PRINT], [PRINT, NEG], [PRINT], [PRINT], dn, NA2, NEG, fuel);
  }

  /** The adder registers with a1, na2, then sum, none of them set. */
  lemma BuildAdder(fuel: nat)
    ensures var dn := [Inert, Printer, Negater(A2, NA2)];
            NewAdder(Unwired([PRINT], [PRINT, NEG], [PRINT, NEG], [PRINT], dn), A1, NA2, SUM, fuel) ==
            Step(Wired(), Ok)
  {
    var dn := [Inert, Printer, Negater(A2, NA2)];
    var da := dn + [Adder(A1, NA2, SUM)];
    var s5 := Unwired([PRINT], [PRINT, NEG], [PRINT, NEG], [PRINT], dn);
    assert NewDevice(s5, Adder(A1, NA2, SUM)) == Unwired([PRINT], [PRINT, NEG], [PRINT, NEG], [PRINT], da);
    assert [PRINT] + [ADD] == [PRINT, ADD] && [PRINT, NEG] + [ADD] == [PRINT, NEG, ADD];
    Register([PRINT], [PRINT, NEG], [PRINT, NEG], [PRINT], da, A1, ADD, fuel);
    Register([PRINT, ADD], [PRINT, NEG], [PRINT, NEG], [PRINT], da, NA2, ADD, fuel);
    Register([PRINT, ADD], [PRINT, NEG], [PRINT, NEG, ADD], [PRINT], da, SUM, ADD, fuel);
    assert Unwired([PRINT, ADD], [PRINT, NEG], [PRINT, NEG, ADD], [PRINT, ADD], da) == Wired();
  }

  /** Nothing is set while main builds, so no registration reacts and the
      result is the network with every wire unset and nothing printed. */
  lemma BuildIsWired(fuel: nat)
    ensures Build(fuel) == Wired()
  {
    var s0 := NewDevice(NewWire(NewWire(NewWire(NewWire(State([], [Inert], []), "a1"), "a2"), "na2"), "sum"),
                        Printer);
    assert s0 == Unwired([], [], [], [], [Inert, Printer]);
    BuildPrinters(fuel);
    BuildNegater(fuel);
    BuildAdder(fuel);
  }

  /** main's four stimuli, in order: every call completes, and at the end a1
      and sum hold USER's values while na2 = sum - a1 and a2 = -na2 are
      credited to the adder and the negater. */
  lemma MainStimuli(p: int, q: int, t: int, fuel: nat)
    requires fuel >= 2
    ensures var r1 := SetSignal(Wired(), A1, p, USER, fuel);
            var r2 := SetSignal(r1.net, A2, q, USER, fuel);
            var r3 := ResetSignal(r2.net, A2, USER, fuel);
            var r4 := SetSignal(r3.net, SUM, t, USER, fuel);
            && r1.out == Ok && r2.out == Ok && r3.out == Ok && r4.out == Ok
            && r4.net == Net(Some(p), U, Some(p - t), Some(NEG), Some(t - p), Some(ADD), Some(t), U, Log4(p, q, t))
  {
    SetA1(p, fuel);
    SetA2(p, q, fuel);
    ResetA2(p, q, fuel);
    SetSum(p, q, t, fuel);
  }

  /** A lone adder over x, y and s (wires 0, 1 and 2; the adder is device 1). */
  function Trio(x: Option<int>, ex: Option<DeviceRef>, y: Option<int>, ey: Option<DeviceRef>,
                s: Option<int>, es: Option<DeviceRef>): State
  {
    State([Wire("x", x, ex, [1]), Wire("y", y, ey, [1]), Wire("s", s, es, [1])],
          [Inert, Adder(0, 1, 2)], [])
  }

  /** USER sets the sum, then the second addend: the adder derives the first
      addend as sum minus second addend. */
  lemma AdderDerivesAddend(q: int, t: int, fuel: nat)
    requires fuel >= 1
    ensures var r1 := SetSignal(Trio(None, None, None, None, None, None), 2, t, USER, fuel);
            var r2 := SetSignal(r1.net, 1, q, USER, fuel);
            && r1.out == Ok
            && r2 == Step(Trio(Some(t - q), Some(1), Some(q), U, Some(t), U), Ok)
  {
    var s0 := Trio(None, None, None, None, None, None);
    var s1 := Trio(None, None, None, None, Some(t), U);
    assert Assign(s0, 2, Some(t), U) == s1;
    assert Rule(s1.wires, s1.devices[1]) == None;
    assert OnUpdate(s1, 1, Some(2), fuel) == Step(s1, Ok);
    assert NotifyUpdate(s1, 2, USER, [1], fuel) == Step(s1, Ok);
    assert SetSignal(s0, 2, t, USER, fuel) == Step(s1, Ok);
    var s2 := Trio(None, None, Some(q), U, Some(t), U);
    var s3 := Trio(Some(t - q), Some(1), Some(q), U, Some(t), U);
    assert Assign(s1, 1, Some(q), U) == s2;
    assert Rule(s2.wires, s2.devices[1]) == Some(Write(0, t - q));
    assert Assign(s2, 0, Some(t - q), Some(1)) == s3;
    assert NotifyUpdate(s3, 0, 1, [1], fuel - 1) == Step(s3, Ok);
    assert SetSignal(s2, 0, t - q, 1, fuel - 1) == Step(s3, Ok);
    assert OnUpdate(s2, 1, Some(1), fuel) == Step(s3, Ok);
    assert NotifyUpdate(s2, 1, USER, [1], fuel) == Step(s3, Ok);
  }

  /** USER then clears the derived first addend.  Inside the reset's own
      cascade the adder re-derives it from the two USER values, but the wire
      is still credited to USER: set_signal throws, the reset is cut short
      before its emitter is cleared, and the wire is left unset yet still
      credited to USER, so no device may write it until USER resets it again. */
  lemma UserResetOfDerivableWireFails(q: int, t: int, fuel: nat)
    requires fuel >= 1
    ensures ResetSignal(Trio(Some(t - q), Some(1), Some(q), U, Some(t), U), 0, USER, fuel) ==
            Step(Trio(None, U, Some(q), U, Some(t), U), Failed(Conflict))
  {
    var s0 := Trio(Some(t - q), Some(1), Some(q), U, Some(t), U);
    var s1 := Trio(None, U, Some(q), U, Some(t), U);
    assert Assign(s0, 0, None, U) == s1;
    assert ResetUnlessCause(s1, 0, 0, 1, fuel) == Step(s1, Ok);
    assert ResetUnlessCause(s1, 1, 0, 1, fuel) == Step(s1, Ok);
    assert ResetUnlessCause(s1, 2, 0, 1, fuel) == Step(s1, Ok);
    assert Rule(s1.wires, s1.devices[1]) == Some(Write(0, t - q));
    assert OnUpdate(s1, 1, None, fuel) == Step(s1, Failed(Conflict));
    assert OnForget(s1, 1, 0, fuel) == Step(s1, Failed(Conflict));
    assert NotifyForget(s1, 0, USER, [1], fuel) == Step(s1, Failed(Conflict));
  }
}

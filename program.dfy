/** eval.cc's main, run on the engine: build the network, then drive it with
    USER's four stimuli. */
module Program {
  import opened Circuit
  import opened Scenario
  import opened Engine

  /** The first half of main: four wires, a printer on each, then the
      negater and the adder.  Nothing is set yet, so nothing propagates. */
  method BuildMain(fuel: nat) returns (net: Network)
    ensures fresh(net) && net.Valid() && net.Snapshot() == Wired()
  {
    net := new Network();
    var a1 := net.NewWire("a1");
    var a2 := net.NewWire("a2");
    var na2 := net.NewWire("na2");
    var sum := net.NewWire("sum");
    var printer := net.NewPrinter();
    var r := net.AddConstraint(a1, printer, fuel);
    r := net.AddConstraint(a2, printer, fuel);
    r := net.AddConstraint(na2, printer, fuel);
    r := net.AddConstraint(sum, printer, fuel);
    var negater;
    negater, r := net.NewNegater(a2, na2, fuel);
    var adder;
    adder, r := net.NewAdder(a1, na2, sum, fuel);
    BuildIsWired(fuel);
  }

  /** main: any fuel of at least 2 covers its deepest cascade.  None of the
      four stimuli throws, and the final arena holds a1 = 5 and sum = 8 from
      USER, na2 = 3 from the adder and a2 = -3 from the negater, and the
      console shows every line main prints. */
  method RunMain(fuel: nat) returns (net: Network, r1: Outcome, r2: Outcome, r3: Outcome, r4: Outcome)
    requires fuel >= 2
    ensures r1 == Ok && r2 == Ok && r3 == Ok && r4 == Ok
    ensures net.Valid()
    ensures net.Snapshot() ==
            Net(Some(5), U, Some(-3), Some(NEG), Some(3), Some(ADD), Some(8), U, Log4(5, 6, 8))
  {
    net := BuildMain(fuel);
    SetA1(5, fuel);
    r1 := net.SetSignal(A1, 5, USER, fuel);
    SetA2(5, 6, fuel);
    r2 := net.SetSignal(A2, 6, USER, fuel);
    ResetA2(5, 6, fuel);
    r3 := net.ResetSignal(A2, USER, fuel);
    SetSum(5, 6, 8, fuel);
    r4 := net.SetSignal(SUM, 8, USER, fuel);
  }
}

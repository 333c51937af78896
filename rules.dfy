/** Rule selection of the two relation devices: which wire Adder::on_update
    and Negater::on_update write, and with what value.  The write itself is
    done by the propagation engine. */
module Rules {
  import opened Circuit

  predicate IsSet(wires: seq<Wire>, x: WireId)
    requires x < |wires|
  {
    wires[x].signal.Some?
  }

  function Get(wires: seq<Wire>, x: WireId): int
    requires x < |wires| && IsSet(wires, x)
  {
    wires[x].signal.value
  }

  /** 1 for a known wire, 0 for an unknown one. */
  function Count(known: bool): nat {
    if known then 1 else 0
  }

  /** The wires once a write has landed on its target. */
  function Written(wires: seq<Wire>, wr: Write): seq<Wire>
    requires wr.target < |wires|
  {
    wires[wr.target := wires[wr.target].(signal := Some(wr.value))]
  }

  /** sum = addend1 + addend2, with all three known. */
  predicate SumHolds(wires: seq<Wire>, a1: WireId, a2: WireId, sum: WireId)
    requires a1 < |wires| && a2 < |wires| && sum < |wires|
  {
    IsSet(wires, a1) && IsSet(wires, a2) && IsSet(wires, sum) &&
    Get(wires, a1) + Get(wires, a2) == Get(wires, sum)
  }

  /** out = -in, with both known. */
  predicate NegationHolds(wires: seq<Wire>, i: WireId, o: WireId)
    requires i < |wires| && o < |wires|
  {
    IsSet(wires, i) && IsSet(wires, o) && Get(wires, o) == -Get(wires, i)
  }

  /** Adder::on_update: the first known pair, in the order (addend1, addend2),
      (addend1, sum), (addend2, sum), determines the third wire. */
  function AdderRule(wires: seq<Wire>, a1: WireId, a2: WireId, sum: WireId): (r: Option<Write>)
    requires a1 < |wires| && a2 < |wires| && sum < |wires|
    ensures r.None? <==> Count(IsSet(wires, a1)) + Count(IsSet(wires, a2)) + Count(IsSet(wires, sum)) < 2
    ensures IsSet(wires, a1) && IsSet(wires, a2) ==> r.Some? && r.value.target == sum
    ensures r.Some? ==> r.value.target in {a1, a2, sum}
    ensures r.Some? && a1 != a2 && a1 != sum && a2 != sum ==>
              SumHolds(Written(wires, r.value), a1, a2, sum)
  {
    if IsSet(wires, a1) && IsSet(wires, a2) then Some(Write(sum, Get(wires, a1) + Get(wires, a2)))
    else if IsSet(wires, a1) && IsSet(wires, sum) then Some(Write(a2, Get(wires, sum) - Get(wires, a1)))
    else if IsSet(wires, a2) && IsSet(wires, sum) then Some(Write(a1, Get(wires, sum) - Get(wires, a2)))
    else None
  }

  /** Negater::on_update: a known input determines the output, otherwise a
      known output determines the input. */
  function NegaterRule(wires: seq<Wire>, i: WireId, o: WireId): (r: Option<Write>)
    requires i < |wires| && o < |wires|
    ensures r.None? <==> Count(IsSet(wires, i)) + Count(IsSet(wires, o)) == 0
    ensures IsSet(wires, i) ==> r.Some? && r.value.target == o
    ensures r.Some? ==> r.value.target in {i, o}
    ensures r.Some? && i != o ==> NegationHolds(Written(wires, r.value), i, o)
  {
    if IsSet(wires, i) then Some(Write(o, -Get(wires, i)))
    else if IsSet(wires, o) then Some(Write(i, -Get(wires, o)))
    else None
  }

  /** The rule of any device: the passive kinds never derive anything. */
  function Rule(wires: seq<Wire>, d: Device): (r: Option<Write>)
    requires Attached(d, |wires|)
    ensures r.Some? ==> r.value.target < |wires| && (d.Adder? || d.Negater?)
  {
    match d
    case Adder(a1, a2, sum) => AdderRule(wires, a1, a2, sum)
    case Negater(i, o) => NegaterRule(wires, i, o)
    case _ => None
  }
}

# Constraint propagation engine of eval.cc

`eval.cc` is a small bidirectional constraint-propagation engine.

- A `Wire` holds three things: an optional value, the device credited with that value (its *emitter*), and the devices observing it, in registration order.
- Writing or clearing a wire notifies every observer except the writer.
- The relation devices `Adder` (`sum = addend1 + addend2`) and `Negater` (`out = -in`) react by writing the wire their rule determines.
- A printing device writes each change to the console.
- The distinguished device `Device::USER` has authority: no other device may overwrite a value that USER wrote. `set_signal` throws on such an attempt, and `reset_signal` silently ignores it.
- `main` builds one network (`na2 = -a2`, `sum = a1 + na2`) and drives it with four stimuli from USER.

The model is split into these modules:

- **Circuit** (`circuit.dfy`): the data model.
  - Wires and devices live in one arena and are addressed by index.
  - USER is device 0, a device whose reactions do nothing.
  - A `State` holds every wire, every device and the console output (`log`).
  - `Valid` says that every signal has an emitter, and that every observer, and every wire a device is bound to, lies inside the arena. Emitters are not bounded: they are only compared with USER.
- **Rules** (`rules.dfy`): the rule selection of `Adder::on_update` and `Negater::on_update`, as pure functions. Each returns which wire to write and what value to write.
- **Propagation** (`propagation.dfy`): the reference semantics.
  - The mutators (`set_signal`, `reset_signal`, `add_constraint`), their notification loops and the device reactions are mutually recursive functions from a `State` to a `Step` (the new state plus an `Outcome`).
  - A thrown `runtime_error` is `Failed(Conflict)`. It aborts the remaining work and keeps the writes already made, because the source does no rollback.
  - Recursion depth is bounded by `fuel`. Running out gives `Failed(DepthExceeded)`.
- **Engine** (`engine.dfy`): the engine as the C++ runs it.
  - One `Network` object holds the arena, and its methods update it in place.
  - The methods loop over the observers and call back into each other re-entrantly.
  - Every method is proved to produce exactly the state and outcome that the reference semantics gives.
- **Properties** (`properties.dfy`): what observers see.
  - Notification order and the output with passive observers.
  - Late registration.
  - Release of a wire after a successful reset by USER.
- **Scenario** (`scenario.dfy`) and **Program** (`program.dfy`): `main`.
  - Scenario proves, for symbolic values, the state and console output after main's construction and after each of its stimuli.
  - Program.RunMain performs main's calls on the engine and proves the final arena.
  - Scenario also contains two small adder networks. One shows a derivation. The other shows a reset by USER that fails inside its own cascade.

## Model

| member | source | states |
|---|---|---|
| Rules.AdderRule | eval.cc:103-113 | Nothing is written iff fewer than two of the three wires are set. Known addends always determine the sum (rule 1 has priority). Only one of the adder's own wires is written. On distinct wires, the write makes `sum = addend1 + addend2` hold. |
| Rules.NegaterRule | eval.cc:130-137 | Nothing is written iff neither wire is set. A set input always determines the output. Only `in` or `out` is written. On distinct wires, the write makes `out = -in` hold. |
| Rules.Rule | eval.cc:13-19 | Only an Adder or a Negater ever derives a write (the base device and the printer never do). The target is a wire of the arena. |
| Propagation.SetSignal | eval.cc:31-44 | A writer other than USER on a wire credited to USER gets `Conflict`, with the state unchanged and nobody notified. Otherwise the wire is set, and a write by USER leaves it holding exactly `v` credited to USER. The cascade keeps the arena valid and never unsets a wire. It never alters any other wire credited to USER. |
| Propagation.NotifyUpdate | eval.cc:38-42 | The update loop keeps the arena's shape and validity. It never unsets a wire. It never alters a wire credited to USER. |
| Propagation.ResetSignal | eval.cc:45-58 | A reset by any device other than USER on a wire credited to USER is a silent no-op (`Ok`, state unchanged). A reset by USER leaves the wire unset. Its emitter is cleared when the cascade completes and is still USER when the cascade failed. No other wire credited to USER is altered. |
| Propagation.NotifyForget | eval.cc:49-53 | The forget loop keeps the arena's shape and validity and leaves every wire credited to USER alone. |
| Propagation.OnUpdate | eval.cc:78-137 | The printer appends exactly one line, the cause's name and value. A relation whose rule selects nothing leaves the state unchanged. Without fuel, a selected write gives `DepthExceeded`. Otherwise the device writes as itself: a target credited to USER gives `Conflict` with the state unchanged, and any other target is left set. The reaction never unsets a wire or alters one credited to USER. The exact value and credit of the write are stated in Properties.AdderReacts and Properties.NegaterReacts. |
| Propagation.OnForget | eval.cc:114-142 | A relation's forget (resetting its other wires, then re-deriving) keeps the arena's shape and validity and leaves every wire credited to USER alone. |
| Propagation.ResetUnlessCause | eval.cc:115-117 | The cause itself is skipped (`Ok`, state unchanged). Any other wire credited to USER silently refuses the reset (`Ok`, state unchanged). Without fuel the reset gives `DepthExceeded`. Shape, validity and wires credited to USER are always kept. |
| Propagation.AddConstraint | eval.cc:68-73 | The observer is appended to this wire's list only. Names, other lists and devices are unchanged. Registering with an unset wire triggers no reaction: the result is exactly the appended list, with `Ok`. No wire is unset, and wires credited to USER are kept. |
| Propagation.NewWire | eval.cc:30 | A new wire is appended: unset, with no emitter and no observers. Everything else is unchanged. |
| Propagation.NewDevice | eval.cc:147 | A device is appended to the arena. Wires and output are unchanged. |
| Propagation.NewAdder | eval.cc:97-102 | The adder is appended. When construction succeeds on three distinct wires, exactly `addend1`, `addend2` and `sum` gain the new device at the end of their observer lists, and no other list changes. The arena stays valid, no wire is unset, and wires credited to USER are kept. |
| Propagation.NewNegater | eval.cc:126-129 | The negater is appended. When construction succeeds on two distinct wires, exactly `in` and `out` gain the new device at the end of their observer lists, and no other list changes. The arena stays valid, no wire is unset, and wires credited to USER are kept. |
| Engine.Network.constructor | eval.cc:18-21 | The arena starts with `Device::USER` alone. |
| Engine.Network.NewWire | eval.cc:30 | Appends a wire, as `Propagation.NewWire`. |
| Engine.Network.NewPrinter | eval.cc:147 | Appends a printing device, as `Propagation.NewDevice`. |
| Engine.Network.NewAdder | eval.cc:97-102 | The in-place construction ends in exactly the state and outcome of `Propagation.NewAdder`. |
| Engine.Network.NewNegater | eval.cc:126-129 | The in-place construction ends in exactly the state and outcome of `Propagation.NewNegater`. |
| Engine.Network.IsSet | eval.cc:65-67 | True iff the wire holds a value. |
| Engine.Network.GetSignal | eval.cc:59-64 | Defined only on a set wire. It returns the value the wire holds. |
| Engine.Network.SetSignal | eval.cc:31-44 | The in-place write and its re-entrant cascade end in exactly the state and outcome of `Propagation.SetSignal`. |
| Engine.Network.NotifyUpdate | eval.cc:38-42 | The observer loop, with its early exit on a throw, equals `Propagation.NotifyUpdate`. |
| Engine.Network.ResetSignal | eval.cc:45-58 | The in-place reset ends in exactly the state and outcome of `Propagation.ResetSignal`. |
| Engine.Network.NotifyForget | eval.cc:49-53 | The observer loop equals `Propagation.NotifyForget`. |
| Engine.Network.AddConstraint | eval.cc:68-73 | `push_back` followed by the conditional `on_update` equals `Propagation.AddConstraint`. |
| Engine.Network.OnUpdate | eval.cc:78-137 | Each device kind's reaction equals `Propagation.OnUpdate`. |
| Engine.Network.OnForget | eval.cc:84-142 | Each device kind's reaction equals `Propagation.OnForget`. |
| Engine.Network.ResetUnlessCause | eval.cc:115-117 | Equals `Propagation.ResetUnlessCause`. |
| Properties.PassiveForget | eval.cc:16-17 | The base device's forget changes nothing. The printer's forget appends exactly one `ForgetValue` line for the cause. |
| Properties.CauseIgnored | eval.cc:103 | For every device except the printer, the reaction to an update does not depend on which wire caused it. |
| Properties.AdderReacts | eval.cc:103-113 | Take an adder on three distinct wires whose rule selects a write, with fuel left, a target not credited to USER, and only passive observers on the target apart from the adder. Then `on_update` succeeds. It changes only the target, which gets the rule's value credited to the adder. Afterwards `sum = addend1 + addend2` holds. |
| Properties.NegaterReacts | eval.cc:130-137 | The same for a negater on two distinct wires: the rule's value is written to the target, credited to the negater, and `out = -in` holds afterwards. |
| Properties.NotifyUpdatePassive | eval.cc:38-42 | With passive observers (the writer excepted), the loop only prints. It prints one line per printer other than the writer, in registration order. |
| Properties.NotifyForgetPassive | eval.cc:49-53 | The same statement for the forget loop. |
| Properties.SetSignalAnnounces | eval.cc:31-44 | With passive observers (the writer excepted), an accepted write assigns the value and emitter first. Then it announces the new value once per printer except the writer, in registration order, even when the value is unchanged. |
| Properties.ResetSignalAnnounces | eval.cc:45-58 | With passive observers (the writer excepted), an accepted reset clears the wire and announces the forget once per printer except the writer, in order. Afterwards the emitter is null for USER, and the resetting device otherwise. |
| Properties.LateRegistration | eval.cc:68-73 | A printer registered late prints the wire's current value once, exactly when the wire is set. No signal or emitter changes. |
| Properties.UserResetReleases | eval.cc:45-58 | After a completed reset by USER, the wire is unset and accepts a write from any device. |
| Scenario.Register | eval.cc:68-73 | Registering with an unset wire of main's network only appends the observer. |
| Scenario.BuildPrinters | eval.cc:148-151 | The printer's four registrations leave every wire unset and print nothing. |
| Scenario.BuildNegater | eval.cc:152 | `Negater(a2, na2)` registers with `a2`, then `na2`, and succeeds. |
| Scenario.BuildAdder | eval.cc:153 | `Adder(a1, na2, sum)` registers with its three wires and succeeds. |
| Scenario.BuildIsWired | eval.cc:146-153 | main's construction yields the wired network with every wire unset and nothing printed. |
| Scenario.SetA1 | eval.cc:154 | `a1 = p` is printed, and nothing is derived. |
| Scenario.SetA2Sum | eval.cc:155 | Inside `set a2`, the adder writes `sum = p - q`, and it is printed. |
| Scenario.SetA2Na2 | eval.cc:155 | Inside `set a2`, the negater writes `na2 = -q`, which makes the adder derive `sum`. |
| Scenario.SetA2 | eval.cc:155 | `set a2 = q` ends with `na2 = -q` (credited to the negater), `sum = p - q` (credited to the adder), and the four lines printed. |
| Scenario.ResetA2Sum | eval.cc:156 | Inside `reset a2`, the adder's forget clears `sum`. |
| Scenario.ResetA2Na2 | eval.cc:156 | Inside `reset a2`, the negater's forget clears `na2`, and the clear cascades to `sum`. |
| Scenario.ResetA2 | eval.cc:156 | `reset a2` clears `a2`, `na2` and `sum`. It prints the three forgets and nulls `a2`'s emitter. `a1` is kept. |
| Scenario.SetSumA2 | eval.cc:157 | Inside `set sum`, the negater writes `a2 = p - t`. |
| Scenario.SetSumNa2 | eval.cc:157 | Inside `set sum`, the adder writes `na2 = t - p`, which the negater mirrors into `a2`. |
| Scenario.SetSum | eval.cc:157 | `set sum = t` ends with `na2 = t - p` (credited to the adder) and `a2 = p - t` (credited to the negater). |
| Scenario.MainStimuli | eval.cc:154-157 | All four stimuli complete. In the final arena, `a1` and `sum` are USER's, `na2 = t - a1` and `a2 = -na2` are credited to the inference devices, and the log is the full console output. |
| Scenario.AdderDerivesAddend | eval.cc:110-111 | With `sum` and `addend2` set by USER, the adder derives `addend1 = sum - addend2` (rule 3). |
| Scenario.UserResetOfDerivableWireFails | eval.cc:45-58 | A reset by USER of a wire that the adder can re-derive from two wires USER set fails with `Conflict` inside its own cascade. The wire is left unset but still credited to USER. |
| Program.BuildMain | eval.cc:146-153 | Building main's network on the engine yields the wired network. |
| Program.RunMain | eval.cc:145-159 | None of main's four stimuli throws. Performing main's calls on the engine ends with `a1 = 5` and `sum = 8` (USER), `na2 = 3` (adder) and `a2 = -3` (negater), after every line main prints. |

## Left out

- `Value` wraps a `double`. The model uses `int`, because the engine only adds, subtracts and negates. Rounding and non-finite values are not modelled.
- `PrintDevice`'s console output becomes the `log` of `NewValue`/`ForgetValue` events. The exact text formatting is not modelled.
- Recursion depth: a cyclic network can make `set_signal` recurse until the stack overflows, since it never checks whether a value changed. The model bounds nesting with `fuel` and reports `DepthExceeded`. Termination or convergence of arbitrary networks is not modelled.
- Pointers are not modelled. Wires and devices are arena indices. Object lifetimes, dangling pointers and virtual dispatch (modelled as a match on the device kind) are outside the model.
- The `Wire` constructors leave `emitter` uninitialised. The model starts it as the null emitter.
- A device whose constructor throws part-way stays in the arena with the registrations it already made. In C++ the object would not exist, but the wires that registered it would keep its address.
- Exception unwinding is reduced to "abort the remaining work, keep the writes already made", which is the `Failed` outcome.
- `Wire() = default` (eval.cc:29) and `Value`'s conversions are not modelled separately.
- Propagation.NotifyUpdate: the contract states the invariants the loop keeps. It does not describe what observers that are not passive write. Who is told, and in what order, is proved for passive observers in Properties.NotifyUpdatePassive.
- Propagation.OnForget and Propagation.NotifyForget: their contracts state the invariants the cascade keeps, not which wires end up unset. The wires a forget clears are shown only for main's network (Scenario.ResetA2) and for the adder example, not for arbitrary networks.
- Propagation.OnUpdate: the exact value and credit of a relation's write are stated only when the target's other observers are passive (Properties.AdderReacts, Properties.NegaterReacts). Otherwise the cascade the write starts may overwrite the target again.

## Notes on behaviour

A reset by USER keeps the wire credited to USER while the forget notifications run, and nulls the emitter only afterwards (eval.cc:47-57). Suppose the wire can be re-derived from values USER set on other wires. Then a relation device's re-derivation inside that cascade hits the authority rule and throws (Scenario.UserResetOfDerivableWireFails). The nulling line is skipped, so the wire is left unset but still credited to USER. One might expect a wire cleared by USER to be free for any device to claim. The code makes it so only once the cascade has completed (Properties.UserResetReleases).

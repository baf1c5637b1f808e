# Heating controller — a Dafny model

`heating_control.py` simulates a building's heating plant with four
threads sharing one record and four bounded queues:

- **SW** reads operator commands (`a`, `m`, `p <0..100>`, `q`) and
  publishes them as events on a ten-slot queue;
- **T** relaxes a base temperature towards a target set by the power in
  effect and publishes one noisy reading per thermocouple;
- **P** picks the power to apply (the newest automatic command in
  automatic mode, the shared power otherwise), integrates the pressure,
  sets the relief valve and publishes the reading;
- **S** applies the pending operator events, takes the newest temperature
  and pressure, classifies comfort and, in automatic mode, computes the
  proportional power, makes it the power in effect and publishes it to P.

The three data channels hold one message each; every publish goes through
`ultimul_mesaj`, which drops the oldest message when the queue is full, so
consumers always see the newest value. The operator-event queue goes
through the same function with ten slots, so when it is full the oldest
event is lost, not the new one, and the model follows the code: the
publishers of that queue, `Simulation.Submit` and
`Wiring.Plant.OperatorCommand` (through `BoundedQueue.Publish`), use
`Offer`, while `Heating` only drains it.

The project is layered as the program is:

- `control.dfy` — the stateless helpers (`limiteaza`, `calcul_confort`,
  `calcul_putere_mod_automat`, the valve's step function, the mean);
- `channels.dfy` — `ultimul_mesaj` as a function on queue contents
  (`Offer`), the newest element of a sequence (`Latest`), and a
  `BoundedQueue` class whose methods are `full`, `get_nowait`,
  `put_nowait`, `ultimul_mesaj`, `goleste_coada` and the take-latest
  drain: `Publish` is proved against `Offer`, `TakeLatest` against
  `Latest`, and `GetNoWait`, `PutNoWait` and `Clear` state their own
  effect on the contents;
- `heating.dfy` — the shared record `stare` as a class, and each periodic
  task as a class whose fields are the variables its loop carries and
  whose `Cycle` method is one iteration, proved equal to a pure cycle
  function (`TemperatureCycle`, `PressureCycle`, `DecisionCycle`);
- `simulation.dfy` — the whole plant as a state machine in which each
  operator command and each task cycle is one atomic action, any
  interleaving allowed, with an invariant proved for every reachable
  state and the controller's guarantees derived from it;
- `wiring.dfy` — the objects `main` creates, with one method per action
  proved to have exactly the effect the state machine gives that action.

Quantities are exact reals. The randomness of T and P is an argument of
their cycle (`noise`), constrained to the interval `random.uniform`
draws from.

## Model

| member | source | states |
|---|---|---|
| Control.Clamp | heating_control.py:24-33 | the result lies in `[lo, hi]`, equals the value when it is already in range, and is always one of value, `lo`, `hi` |
| Control.ClampIdempotent | heating_control.py:24-33 | clamping a clamped value changes nothing |
| Control.ClampMonotonic | heating_control.py:24-33 | a larger requested value never yields a smaller clamped value |
| Control.ClassifyComfort | heating_control.py:72-78 | cold exactly below `ref - band`, hot exactly above `ref + band`, comfortable exactly inside the closed band (both boundaries comfortable) |
| Control.ClassifyComfortMonotonic | heating_control.py:72-78 | a warmer mean is never classified colder |
| Control.ComfortScenario | heating_control.py:72-78 | with reference 22 and band 1: 20.9 cold, 21.0 and 23.0 comfortable, 23.1 hot |
| Control.AutomaticPower | heating_control.py:81-90 | the power exceeds, equals or falls below the base power 30 exactly when the mean is below, at or above the reference |
| Control.AutomaticPowerDecreasing | heating_control.py:81-90 | the power drops by exactly the gain 12 per degree of mean temperature, so it is strictly decreasing in the mean |
| Control.AutomaticPowerScenario | heating_control.py:81-90 | mean 18 against reference 22 gives 78, left unchanged by the clamp to [0, 100] |
| Control.AutomaticPowerSaturates | heating_control.py:372-375 | after the clamp S applies, the power is 100 once the mean is 70/12 degrees below the reference and 0 once it is 2.5 degrees above |
| Control.ValveAction | heating_control.py:255-261 | the valve is fully open exactly above the safety maximum, partly open (0.6) exactly between reference + 0.3 and the maximum, closed otherwise |
| Control.ValveActionMonotonic | heating_control.py:255-261 | a higher pressure never opens the valve less |
| Control.Sum | heating_control.py:361 | Python's `sum` from the left; a lone reading is its own sum (its bounds are in `SumBetween`) |
| Control.Mean | heating_control.py:361 | the mean, counted once per reading, gives back the total of the batch |
| Control.AddWithin | heating_control.py:361 | one more reading within the bounds keeps the running total within the bounds times the count |
| Control.DivideWithin | heating_control.py:361 | dividing a total bounded by `n*lo` and `n*hi` by `n` lands in `[lo, hi]` |
| Control.SumBetween | heating_control.py:361 | the sum of readings all in `[lo, hi]` lies between `n*lo` and `n*hi` |
| Control.MeanBetween | heating_control.py:358-362 | the mean S computes of a non-empty batch lies between any bounds of its readings |
| Control.ClampFloat | heating_control.py:24-33 | `limiteaza` on Python floats as written: a number is clamped as `Clamp` does, NaN comes back unchanged |
| Control.NaNEscapesClamp | heating_control.py:130-137 | the operator line `p nan` yields a value that the clamp to [0, 100] does not bring into range |
| Control.ClampChecked | heating_control.py:130-137 | the corrected input check: NaN is rejected exactly when given, every accepted value lies in `[lo, hi]` and equals the clamp of the input |
| Channels.Offer | heating_control.py:35-50 | publishing keeps `min(n+1, capacity)` messages, namely the newest ones of the old contents plus the message, which ends up last; a one-slot queue then holds only the message |
| Channels.OfferDropsOnlyHead | heating_control.py:40-47 | a full queue loses exactly its head; a queue with room loses nothing |
| Channels.OfferElements | heating_control.py:35-50 | publishing brings in no message other than the one published |
| Channels.PublishAll | heating_control.py:35-50 | any number of publishes keeps the queue within its capacity |
| Channels.OfferKeepsNewest | heating_control.py:35-50 | one publish onto the newest messages of a history leaves the newest messages of the history extended by the new message |
| Channels.PublishAllKeepsNewest | heating_control.py:35-50 | after any run of publishes the queue holds exactly the newest `min(total, capacity)` messages of everything it ever held |
| Channels.LatestWins | heating_control.py:35-50 | after a non-empty run of publishes the newest message is last, and a one-slot queue holds only it |
| Channels.BoundedQueue.constructor | heating_control.py:458-461 | a new queue of capacity at least 1 is empty |
| Channels.BoundedQueue.IsFull | heating_control.py:41 | `full()`: for a valid queue, true exactly when it holds as many messages as its capacity |
| Channels.BoundedQueue.GetNoWait | heating_control.py:42 | returns and removes the head, or nothing (Python's `Empty`) on an empty queue |
| Channels.BoundedQueue.PutNoWait | heating_control.py:47-50 | appends exactly when there is room; otherwise reports failure (Python's `Full`) and leaves the queue unchanged |
| Channels.BoundedQueue.Publish | heating_control.py:35-50 | the new contents are `Offer` of the old contents and the message |
| Channels.BoundedQueue.Clear | heating_control.py:52-59 | the loop ends with the queue empty |
| Channels.BoundedQueue.TakeLatest | heating_control.py:231-244 | the queue ends empty and the result is the last element it held, or nothing if it was empty |
| Heating.ApplyEvent | heating_control.py:308-326 | `set_mod` sets the mode and, entering manual, puts the manual setpoint in effect; `set_putere_manual` stores the clamped value and puts it in effect only in manual mode; automatic mode never changes the power in effect; `oprire` changes nothing |
| Heating.ApplyEventKeepsInv | heating_control.py:308-326 | every event preserves "both powers in [0, 100] and, in manual mode, the setpoint is in effect" |
| Heating.DrainEvents | heating_control.py:296-306 | the drain stops exactly when an `oprire` is queued; it then leaves exactly the events after the first `oprire` queued, otherwise it empties the queue |
| Heating.DrainEventsKeepsInv | heating_control.py:296-326 | draining any events preserves the shared-record invariant |
| Heating.DrainEventsStaysManual | heating_control.py:308-316 | in manual mode, events without a request for automatic mode leave the controller in manual mode |
| Heating.Decide | heating_control.py:358-390 | a command is produced exactly in automatic mode with a sample; it carries the power in effect, which is the clamped automatic power of the sample's mean; otherwise the manual setpoint is in effect; mode and setpoint are untouched; comfort is known exactly when a sample is, and is the classification of its mean |
| Heating.DecideKeepsInv | heating_control.py:367-390 | the decision preserves the shared-record invariant |
| Heating.DecisionCycle | heating_control.py:294-390 | in manual mode nothing is published; on `oprire` the cycle stops before touching the data queues or its variables; otherwise it empties the data queues and, in automatic mode with a sample, publishes the power in effect; nothing is published before the first sample; once a sample is held it stays held |
| Heating.DecisionCycleKeepsInv | heating_control.py:294-390 | one S cycle preserves the shared-record invariant |
| Heating.SelectPower | heating_control.py:217-248 | entering manual mode empties the command queue; staying in manual leaves it alone; manual mode applies the shared power; automatic mode drains the queue and applies its newest command, or the shared power if it was empty |
| Heating.InitialPLocals | heating_control.py:206-209 | P has seen no mode yet, and the closed valve it starts with is the valve's setting for the initial pressure |
| Heating.RaisedPressure | heating_control.py:251-253 | at zero power the pressure relaxes towards the reference without overshooting it, from either side; at the reference it rises by exactly the heating term `0.08 * power / 100` |
| Heating.PressureCycle | heating_control.py:213-271 | P records the mode it saw, applies the power and leaves the queue that `SelectPower` gives, sets the valve by `ValveAction` on the raised pressure, and the new pressure is the raised pressure less the valve's relief plus the noise; it publishes the new pressure and valve |
| Heating.PressureStaysBounded | heating_control.py:250-264 | with powers in range, noise within 0.01 and a safety maximum at least 0.99 above the reference, a pressure at most 0.01 above the maximum stays so after one cycle |
| Heating.Batch | heating_control.py:178-184 | one reading per thermocouple, each the base plus that thermocouple's noise |
| Heating.TargetTemperature | heating_control.py:175 | the target is the ambient temperature at power 0 and the ambient plus the heating delta at power 100 |
| Heating.NextBase | heating_control.py:176 | the target is a fixed point of the relaxation, and a response rate of 1 reaches the target in one cycle |
| Heating.LagBetween | heating_control.py:176 | a step of a fraction in [0, 1] of the way from the base to the target lands between them |
| Heating.NextBaseBetween | heating_control.py:175-176 | the relaxation never overshoots: the new base lies between the old base and the target |
| Heating.BaseStaysInRange | heating_control.py:175-176 | with power in range the base stays between ambient and ambient plus the heating delta |
| Heating.BatchMeanNearBase | heating_control.py:178-184 | the mean of a batch is within the noise amplitude of the base temperature |
| Heating.TemperatureCycle | heating_control.py:168-190 | the new base is `NextBase` of the old one at the power in effect, and the batch has one reading per thermocouple, each the new base plus its noise |
| Heating.SharedState.constructor | heating_control.py:441-445 | the record starts in automatic mode, setpoint 30, power 0 |
| Heating.TemperatureTask.constructor | heating_control.py:164 | T starts at the ambient temperature |
| Heating.TemperatureTask.Cycle | heating_control.py:168-190 | one T iteration, with its thermocouple loop, has exactly the effect of `TemperatureCycle` on the base and the temperature channel |
| Heating.PressureTask.constructor | heating_control.py:206-209 | P starts at the reference pressure, valve closed, no previous mode |
| Heating.PressureTask.SelectCommand | heating_control.py:217-248 | reading the record, the purge on entering manual mode, remembering the mode and taking the newest command have exactly the effect `SelectPower` describes, and leave pressure and valve alone |
| Heating.PressureTask.Cycle | heating_control.py:213-271 | one P iteration has exactly the effect of `PressureCycle` on P's variables, the command queue and the pressure channel |
| Heating.DecisionTask.constructor | heating_control.py:289-290 | S starts with no temperature and no pressure |
| Heating.DecisionTask.ApplyPendingEvents | heating_control.py:296-326 | the event loop has exactly the effect of `DrainEvents` on the shared record and the event queue |
| Heating.DecisionTask.ReadInputs | heating_control.py:334-356 | both data channels end empty and S holds the newest temperature and pressure, keeping the previous ones when none arrived |
| Heating.DecisionTask.DecideAndPublish | heating_control.py:358-390 | the comfort, the new shared record and the command queue are exactly those of `Decide`, with its command (if any) published by `ultimul_mesaj` |
| Heating.DecisionTask.Cycle | heating_control.py:294-390 | one S iteration has exactly the effect of `DecisionCycle` on the shared record, S's variables and all four queues |
| Simulation.Initial | heating_control.py:441-461 | the state `main` builds is well formed and running, with all four queues empty |
| Simulation.Step | heating_control.py:441-476 | every action keeps the queues within their capacities and every batch S may average non-empty |
| Simulation.Run | heating_control.py:472-476 | any interleaving of actions keeps the same well-formedness |
| Simulation.DefaultConfigValid | heating_control.py:416-437 | the configuration `main` uses satisfies the conditions the guarantees need |
| Simulation.Submit | heating_control.py:112-145 | an operator command keeps the event queue within its ten slots |
| Simulation.TemperatureStep | heating_control.py:168-190 | a T cycle keeps the queues bounded and every queued batch non-empty |
| Simulation.PressureStep | heating_control.py:213-271 | a P cycle keeps the queues bounded and every queued batch non-empty |
| Simulation.DecisionStep | heating_control.py:294-390 | an S cycle keeps the queues bounded and every batch S holds non-empty |
| Simulation.InitialInv | heating_control.py:441-461 | the state `main` builds satisfies the invariant |
| Simulation.DecisionStepKeepsControlInv | heating_control.py:367-390 | an atomic S cycle keeps powers in range and, in automatic mode, every queued command equal to the power in effect |
| Simulation.PressureStepKeepsControlInv | heating_control.py:217-248 | a P cycle keeps the control invariant |
| Simulation.StepKeepsControlInv | heating_control.py:294-390 | every action keeps the control invariant |
| Simulation.StepKeepsPhysicsInv | heating_control.py:168-264 | every action keeps the base temperature, the readings and the pressure within their limits |
| Simulation.TemperatureStepKeepsPhysicsInv | heating_control.py:168-190 | a T cycle keeps the base temperature in [ambient, ambient + delta] and every reading within 0.15 of that range |
| Simulation.PressureStepKeepsPhysicsInv | heating_control.py:250-271 | a P cycle keeps the pressure, and the reading it publishes, at most 0.01 above the safety maximum |
| Simulation.StepKeepsInv | heating_control.py:441-476 | every action keeps the whole invariant |
| Simulation.RunKeepsInv | heating_control.py:441-476 | any interleaving keeps the whole invariant |
| Simulation.ReachableInv | heating_control.py:441-476 | every reachable state satisfies the invariant |
| Simulation.PressureUsesPowerInEffect | heating_control.py:227-248 | when each S cycle runs as one atomic action, in every reachable running state the power P applies next is the power in effect in the shared record, in [0, 100], in both modes: no stale automatic command is applied between whole S cycles |
| Simulation.ReachableWithinLimits | heating_control.py:175-264 | in every reachable state the pressure is at most 0.01 above the safety maximum and every reading S holds is within 0.15 of [ambient, ambient + heating delta] |
| Simulation.OperatorStaysManual | heating_control.py:112-145 | an operator command other than `a` brings no request for automatic mode into the event queue |
| Simulation.DecisionStaysManual | heating_control.py:384-390 | in manual mode, with no request for automatic mode queued, an S cycle stays manual and publishes nothing |
| Simulation.StepStaysManual | heating_control.py:384-390 | the same for any action other than the operator typing `a` |
| Simulation.ManualPublishesNothing | heating_control.py:384-390 | over any interleaving without `a`, the controller stays manual and the command queue only keeps what it held or is emptied |
| Simulation.OthersKeepPressureLocals | heating_control.py:206-225 | actions other than P cycles leave P's variables alone |
| Simulation.PurgeOnEnteringManual | heating_control.py:221-223 | when P last saw automatic mode (or has not run) and the mode is now manual, P's next cycle empties the command queue and applies the manual setpoint |
| Wiring.Plant.constructor | heating_control.py:441-461 | the objects `main` creates are in the state machine's initial state |
| Wiring.Plant.OperatorCommand | heating_control.py:112-145 | one operator command has exactly the effect of the corresponding action |
| Wiring.Plant.RunTemperatureCycle | heating_control.py:168-193 | one T cycle on the objects has exactly the effect of the corresponding action |
| Wiring.Plant.RunPressureCycle | heating_control.py:213-275 | one P cycle on the objects has exactly the effect of the corresponding action |
| Wiring.Plant.RunDecisionCycle | heating_control.py:294-412 | one S cycle on the objects has exactly the effect of the corresponding action, `stop_event` included |

## Left out

- Threads, `lock_stare`, `lock_consola` and `join`: each task cycle and each operator command is one atomic action, and any interleaving of them is allowed; interleavings inside a cycle are not modelled.
- The `except queue.Empty` / `except queue.Full` branches of `ultimul_mesaj` that only another thread can trigger between `full()` and `get_nowait()`/`put_nowait()`: with atomic cycles they cannot happen.
- Timing: `time.monotonic`, the periods, `asteapta_pana_la_urmatoarea_activare`, message timestamps, the display cadence and the 0.02 s wait of S are not modelled; `q_temperaturi.get(timeout=0.1)` is treated as non-blocking, which is exact only under atomic S cycles (see the next line).
- The suspension of S inside its cycle: S can block for up to 0.1 s at heating_control.py:335, after applying the operator events (lines 296-326) and before publishing its command (line 382), and P may run there. If the operator types `m` and then `a`, and S drains them in two consecutive cycles while P does not run, P next sees automatic mode with a previous mode of automatic, does not purge, and applies the command queued before the `m`. The model's atomic S cycle excludes this, and the guarantees of `Simulation.PressureUsesPowerInEffect` and `Simulation.ControlInv` hold only for atomic S cycles. S writing the power in effect (line 379) before publishing it (line 382) is a second such window.
- Not-a-number values: `float` accepts the text `nan` (heating_control.py:131) and `limiteaza` (lines 29-33) returns it unchanged, so `p nan` stores NaN as the manual setpoint (lines 321-326), and T's base temperature and P's pressure would then become NaN. The model is real-valued and works on the inputs `Control.ClampChecked` accepts. The power-range, temperature and pressure guarantees (`Heating.SharedInv`, `Simulation.ControlInv`, `Simulation.PhysicsInv`) depend on that; see Findings.
- Console I/O: prompts, messages and the status line of S are not modelled; the parsing of typed lines in `task_sw` is abstracted into `Wiring.Plant.OperatorCommand` taking the parsed event, and blank, malformed or unknown lines (which send nothing) are not actions.
- `random.uniform`: replaced by noise arguments bounded as the program draws them.
- The `nan` mean and the `necunoscut` comfort when S has no sample: the comfort is `None` and the mean is not returned.
- Events with an unknown `tip` or `mod`, or a missing `putere`: events form a closed datatype, so these ignored cases do not arise.
- Floating-point rounding: all arithmetic is on exact reals.
- `main`'s final wait loop, the `KeyboardInterrupt` handling and the joins after `stop_event` is set.
- Wiring.Plant.constructor: requires a configuration with at least one thermocouple, a response rate in [0, 1], a non-negative heating delta and a safety maximum at least 0.99 above the reference pressure, which the program's own configuration satisfies but does not check.
- Control.Mean: requires a non-empty batch; the program raises `ZeroDivisionError` on one, which cannot happen because T always sends `numar_TC` readings.
- Channels.LatestWins: the empty run of publishes is excluded, because there is then no newest message to speak of.

## Findings

| source | as written | input that shows it | evidently intended | confidence | as-written member | corrected member |
|---|---|---|---|---|---|---|
| heating_control.py:130-137 | `float` accepts `nan`, and both comparisons in `limiteaza` are false for NaN, so NaN passes the clamp and becomes the manual setpoint | the operator line `p nan` | a value that is not a number is rejected as invalid, and every accepted setpoint lies in [0, 100] | not executed | Control.ClampFloat, Control.NaNEscapesClamp | Control.ClampChecked |

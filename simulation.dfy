/** The whole controller as a sequential state machine.

    The tasks of `main` (SW, T, P, S) run as threads; here each cycle of a
    task is one atomic action, and any interleaving of actions is allowed.
    A `World` holds the shared record, the four queues, the variables each
    task carries across cycles, and whether `stop_event` is set. Once it is
    set every task has left its loop, so every action leaves the world as
    it is. */
module Simulation {
  import opened Wrappers
  import opened Control
  import opened Channels
  import opened Heating

  datatype World = World(
    shared: Shared,
    events: seq<Event>,
    temperatures: seq<TemperatureSample>,
    commands: seq<Command>,
    pressures: seq<PressureReading>,
    base: real,
    p: PLocals,
    s: SLocals,
    stopped: bool)

  /** The state `main` builds before starting the threads. */
  function Initial(cfg: Config): (w: World)
    ensures WellFormed(w) && !w.stopped
    ensures w.events == [] && w.temperatures == [] && w.commands == [] && w.pressures == []
  {
    World(InitialShared, [], [], [], [], cfg.ambientTemperature, InitialPLocals(cfg), InitialSLocals, false)
  }

  /** One atomic action: an operator command (SW), or one cycle of T, P
      or S. The noise of T and P is an argument of their cycle. */
  datatype Action =
    | Operator(event: Event)
    | TemperatureTick(readingNoise: seq<real>)
    | PressureTick(pressureNoise: real)
    | DecisionTick

  /** The configurations the model's guarantees are stated for; the
      default configuration is one of them. */
  predicate ValidConfig(cfg: Config)
  {
    && cfg.thermocouples >= 1
    && 0.0 <= cfg.temperatureResponse <= 1.0
    && 0.0 <= cfg.maxHeatingDelta
    && cfg.maxSafePressure >= cfg.referencePressure + 0.99
  }

  lemma DefaultConfigValid()
    ensures ValidConfig(DefaultConfig)
  {
  }

  /** The noise of an action is what `random.uniform` can draw: one value
      in [-0.15, 0.15] per thermocouple, one value in [-0.01, 0.01] per
      pressure cycle. */
  predicate Admissible(a: Action, cfg: Config)
  {
    match a
    case TemperatureTick(noise) =>
      |noise| == cfg.thermocouples &&
      forall i :: 0 <= i < |noise| ==> -TemperatureNoise <= noise[i] <= TemperatureNoise
    case PressureTick(noise) => -PressureNoise <= noise <= PressureNoise
    case _ => true
  }

  predicate AllAdmissible(t: seq<Action>, cfg: Config)
  {
    forall i :: 0 <= i < |t| ==> Admissible(t[i], cfg)
  }

  /** Queue bounds, and every batch S may average is non-empty. */
  predicate WellFormed(w: World)
  {
    && |w.events| <= EventCapacity
    && |w.temperatures| <= ChannelCapacity
    && |w.commands| <= ChannelCapacity
    && |w.pressures| <= ChannelCapacity
    && AllReadable(w.temperatures)
    && (w.s.lastTemperature.Some? ==> Readable(w.s.lastTemperature.value))
  }

  /** SW: `p` sends its value clamped, `q` sends `oprire` and sets
      `stop_event` itself; every event goes through `ultimul_mesaj` on the
      ten-slot queue, so when that queue is full the oldest event is lost. */
  function Submit(w: World, e: Event): (w': World)
    requires WellFormed(w)
    ensures WellFormed(w')
  {
    var sent := if e.SetManualPower? then SetManualPower(Clamp(e.power, MinPower, MaxPower)) else e;
    w.(events := Offer(w.events, EventCapacity, sent), stopped := w.stopped || e.Shutdown?)
  }

  /** One cycle of T: the base temperature moves and the batch is
      published on the temperature channel. */
  function TemperatureStep(w: World, noise: seq<real>, cfg: Config): (w': World)
    requires WellFormed(w) && ValidConfig(cfg) && Admissible(TemperatureTick(noise), cfg)
    ensures WellFormed(w')
  {
    var r := TemperatureCycle(w.base, w.shared, cfg, noise);
    assert Readable(r.sample);
    w.(base := r.base, temperatures := Offer(w.temperatures, ChannelCapacity, r.sample))
  }

  /** One cycle of P: its variables and the command queue change and the
      reading is published on the pressure channel. */
  function PressureStep(w: World, noise: real, cfg: Config): (w': World)
    requires WellFormed(w)
    ensures WellFormed(w')
  {
    var r := PressureCycle(w.p, w.shared, w.commands, cfg, noise);
    assert r.commands == [] || r.commands == w.commands;
    w.(p := r.locals, commands := r.commands, pressures := Offer(w.pressures, ChannelCapacity, r.reading))
  }

  /** One cycle of S; draining `oprire` sets `stop_event`. */
  function DecisionStep(w: World, cfg: Config): (w': World)
    requires WellFormed(w)
    ensures WellFormed(w')
  {
    var r := DecisionCycle(w.shared, w.s, w.events, w.temperatures, w.pressures, w.commands, ChannelCapacity, cfg);
    assert r.stop ==> |r.events| <= |w.events|;
    w.(shared := r.shared, s := r.locals, events := r.events, temperatures := r.temperatures,
       pressures := r.pressures, commands := r.commands, stopped := r.stop)
  }

  /** One action; once `stop_event` is set nothing moves any more. */
  function Step(w: World, a: Action, cfg: Config): (w': World)
    requires WellFormed(w) && ValidConfig(cfg) && Admissible(a, cfg)
    ensures WellFormed(w')
  {
    if w.stopped then w
    else
      match a
      case Operator(e) => Submit(w, e)
      case TemperatureTick(noise) => TemperatureStep(w, noise, cfg)
      case PressureTick(noise) => PressureStep(w, noise, cfg)
      case DecisionTick => DecisionStep(w, cfg)
  }

  /** A run: the actions of a trace, one after the other. */
  function Run(w: World, t: seq<Action>, cfg: Config): (w': World)
    requires WellFormed(w) && ValidConfig(cfg) && AllAdmissible(t, cfg)
    ensures WellFormed(w')
    decreases |t|
  {
    if t == [] then w else Run(Step(w, t[0], cfg), t[1..], cfg)
  }

  // ---------------------------------------------------------------------
  // The invariant

  predicate CommandsInRange(cs: seq<Command>)
  {
    forall i :: 0 <= i < |cs| ==> PowerInRange(cs[i].power)
  }

  /** The control part: shared powers in range and manual setpoint in
      effect in manual mode; every queued command in range; no command
      before the first sample; and, while running in automatic mode, any
      queued command carries exactly the power in effect, so P picks up
      no stale one between whole S cycles. S can be suspended inside its
      cycle (its 0.1 s wait on the temperature channel comes after the
      events are applied and before the command is published); there P
      may see automatic mode and an older command, which the atomic
      actions of this model do not capture. */
  predicate ControlInv(w: World)
  {
    && SharedInv(w.shared)
    && CommandsInRange(w.commands)
    && (w.s.lastTemperature.None? ==> w.commands == [])
    && (!w.stopped && w.shared.mode == Automatic ==>
          forall i :: 0 <= i < |w.commands| ==> w.commands[i].power == w.shared.currentPower)
  }

  predicate ReadingsIn(t: TemperatureSample, lo: real, hi: real)
  {
    forall i :: 0 <= i < |t.temperatures| ==> lo <= t.temperatures[i] <= hi
  }

  /** The physical part: T's base temperature between the ambient and the
      ambient plus the heating delta, every reading within the noise of
      that range, and the pressure never more than the noise above the
      safety maximum. */
  predicate PhysicsInv(w: World, cfg: Config)
  {
    var lo := cfg.ambientTemperature - TemperatureNoise;
    var hi := cfg.ambientTemperature + cfg.maxHeatingDelta + TemperatureNoise;
    var pmax := cfg.maxSafePressure + PressureNoise;
    && cfg.ambientTemperature <= w.base <= cfg.ambientTemperature + cfg.maxHeatingDelta
    && (forall i :: 0 <= i < |w.temperatures| ==> ReadingsIn(w.temperatures[i], lo, hi))
    && (w.s.lastTemperature.Some? ==> ReadingsIn(w.s.lastTemperature.value, lo, hi))
    && w.p.pressure <= pmax
    && (forall i :: 0 <= i < |w.pressures| ==> w.pressures[i].pressure <= pmax)
    && (w.s.lastPressure.Some? ==> w.s.lastPressure.value.pressure <= pmax)
  }

  predicate Inv(w: World, cfg: Config)
  {
    WellFormed(w) && ControlInv(w) && PhysicsInv(w, cfg)
  }

  lemma InitialInv(cfg: Config)
    requires ValidConfig(cfg)
    ensures Inv(Initial(cfg), cfg)
  {
  }

  lemma DecisionStepKeepsControlInv(w: World, cfg: Config)
    requires WellFormed(w) && ValidConfig(cfg) && !w.stopped
    requires ControlInv(w)
    ensures ControlInv(DecisionStep(w, cfg))
  {
    var r := DecisionCycle(w.shared, w.s, w.events, w.temperatures, w.pressures, w.commands, ChannelCapacity, cfg);
    DecisionCycleKeepsInv(w.shared, w.s, w.events, w.temperatures, w.pressures, w.commands, ChannelCapacity, cfg);
    var w' := DecisionStep(w, cfg);
    assert w'.shared == r.shared && w'.commands == r.commands && w'.s == r.locals && w'.stopped == r.stop;
    if !r.stop && r.shared.mode == Automatic && r.locals.lastTemperature.Some? {
      // the one slot now holds the command just published
      assert w'.commands == [Command(w'.shared.currentPower)];
    } else {
      assert w'.commands == w.commands;
      assert w'.s.lastTemperature.None? ==> w.s.lastTemperature.None?;
    }
    assert SharedInv(w'.shared) && CommandsInRange(w'.commands);
  }

  lemma PressureStepKeepsControlInv(w: World, noise: real, cfg: Config)
    requires WellFormed(w) && ValidConfig(cfg) && !w.stopped
    requires ControlInv(w)
    requires Admissible(PressureTick(noise), cfg)
    ensures ControlInv(Step(w, PressureTick(noise), cfg))
  {
    var sel := SelectPower(w.shared, w.p.previousMode, w.commands);
    assert Step(w, PressureTick(noise), cfg).commands == sel.commands;
    assert sel.commands == [] || sel.commands == w.commands;
  }

  lemma StepKeepsControlInv(w: World, a: Action, cfg: Config)
    requires WellFormed(w) && ValidConfig(cfg) && Admissible(a, cfg)
    requires ControlInv(w)
    ensures ControlInv(Step(w, a, cfg))
  {
    if !w.stopped {
      match a
      case Operator(e) =>
      case TemperatureTick(_) =>
      case PressureTick(noise) =>
        PressureStepKeepsControlInv(w, noise, cfg);
      case DecisionTick =>
        DecisionStepKeepsControlInv(w, cfg);
    }
  }

  lemma TemperatureStepKeepsPhysicsInv(w: World, noise: seq<real>, cfg: Config)
    requires WellFormed(w) && ValidConfig(cfg) && !w.stopped
    requires Admissible(TemperatureTick(noise), cfg)
    requires ControlInv(w) && PhysicsInv(w, cfg)
    ensures PhysicsInv(Step(w, TemperatureTick(noise), cfg), cfg)
  {
    BaseStaysInRange(cfg, w.base, w.shared.currentPower);
    var r := TemperatureCycle(w.base, w.shared, cfg, noise);
    var lo := cfg.ambientTemperature - TemperatureNoise;
    var hi := cfg.ambientTemperature + cfg.maxHeatingDelta + TemperatureNoise;
    assert ReadingsIn(r.sample, lo, hi) by {
      forall i | 0 <= i < |r.sample.temperatures|
        ensures lo <= r.sample.temperatures[i] <= hi
      {
        assert r.sample.temperatures[i] == r.base + noise[i];
      }
    }
    var w' := Step(w, TemperatureTick(noise), cfg);
    assert w' == w.(base := r.base, temperatures := [r.sample]);
    assert cfg.ambientTemperature <= w'.base <= cfg.ambientTemperature + cfg.maxHeatingDelta;
    assert forall i :: 0 <= i < |w'.temperatures| ==> ReadingsIn(w'.temperatures[i], lo, hi);
  }

  lemma PressureStepKeepsPhysicsInv(w: World, noise: real, cfg: Config)
    requires WellFormed(w) && ValidConfig(cfg) && !w.stopped
    requires Admissible(PressureTick(noise), cfg)
    requires ControlInv(w) && PhysicsInv(w, cfg)
    ensures PhysicsInv(Step(w, PressureTick(noise), cfg), cfg)
  {
    PressureStaysBounded(w.p, w.shared, w.commands, cfg, noise);
    var r := PressureCycle(w.p, w.shared, w.commands, cfg, noise);
    var w' := Step(w, PressureTick(noise), cfg);
    assert w' == w.(p := r.locals, commands := r.commands, pressures := [r.reading]);
  }

  lemma StepKeepsPhysicsInv(w: World, a: Action, cfg: Config)
    requires WellFormed(w) && ValidConfig(cfg) && Admissible(a, cfg)
    requires ControlInv(w) && PhysicsInv(w, cfg)
    ensures PhysicsInv(Step(w, a, cfg), cfg)
  {
    if !w.stopped {
      match a
      case Operator(e) =>
      case TemperatureTick(noise) =>
        TemperatureStepKeepsPhysicsInv(w, noise, cfg);
      case PressureTick(noise) =>
        PressureStepKeepsPhysicsInv(w, noise, cfg);
      case DecisionTick =>
    }
  }

  lemma StepKeepsInv(w: World, a: Action, cfg: Config)
    requires ValidConfig(cfg) && Admissible(a, cfg)
    requires Inv(w, cfg)
    ensures Inv(Step(w, a, cfg), cfg)
  {
    StepKeepsControlInv(w, a, cfg);
    StepKeepsPhysicsInv(w, a, cfg);
  }

  lemma {:induction false} RunKeepsInv(w: World, t: seq<Action>, cfg: Config)
    requires ValidConfig(cfg) && AllAdmissible(t, cfg)
    requires Inv(w, cfg)
    ensures Inv(Run(w, t, cfg), cfg)
    decreases |t|
  {
    if t != [] {
      StepKeepsInv(w, t[0], cfg);
      RunKeepsInv(Step(w, t[0], cfg), t[1..], cfg);
    }
  }

  /** Every world reachable from the initial one satisfies the invariant. */
  lemma ReachableInv(cfg: Config, t: seq<Action>)
    requires ValidConfig(cfg) && AllAdmissible(t, cfg)
    ensures Inv(Run(Initial(cfg), t, cfg), cfg)
  {
    InitialInv(cfg);
    RunKeepsInv(Initial(cfg), t, cfg);
  }

  // ---------------------------------------------------------------------
  // Guarantees

  /** In any reachable running world of the atomic model, the power the
      next P cycle applies is the power in effect in the shared record, in
      both modes: between whole S cycles an automatic command carries no
      stale value. Together with the invariant, that power is in [0, 100]. */
  lemma PressureUsesPowerInEffect(cfg: Config, t: seq<Action>, noise: real)
    requires ValidConfig(cfg) && AllAdmissible(t, cfg)
    ensures var w := Run(Initial(cfg), t, cfg);
      !w.stopped ==>
        && PressureCycle(w.p, w.shared, w.commands, cfg, noise).power == w.shared.currentPower
        && PowerInRange(w.shared.currentPower)
  {
    ReachableInv(cfg, t);
  }

  /** In any reachable world the pressure has never gone more than the
      noise amplitude above the safety maximum, and every thermocouple
      reading S may average lies within the noise of the range
      [ambient, ambient + heating delta]. */
  lemma ReachableWithinLimits(cfg: Config, t: seq<Action>)
    requires ValidConfig(cfg) && AllAdmissible(t, cfg)
    ensures var w := Run(Initial(cfg), t, cfg);
      && w.p.pressure <= cfg.maxSafePressure + PressureNoise
      && (w.s.lastTemperature.Some? ==>
            var ts := w.s.lastTemperature.value.temperatures;
            forall i :: 0 <= i < |ts| ==>
              cfg.ambientTemperature - TemperatureNoise <= ts[i] <= cfg.ambientTemperature + cfg.maxHeatingDelta + TemperatureNoise)
  {
    ReachableInv(cfg, t);
  }

  predicate NoAutomaticRequest(events: seq<Event>)
  {
    SetMode(Automatic) !in events
  }

  predicate NoAutomaticCommand(t: seq<Action>)
  {
    Operator(SetMode(Automatic)) !in t
  }

  lemma OperatorStaysManual(w: World, e: Event, cfg: Config)
    requires WellFormed(w) && ValidConfig(cfg) && !w.stopped
    requires NoAutomaticRequest(w.events) && e != SetMode(Automatic)
    ensures NoAutomaticRequest(Step(w, Operator(e), cfg).events)
  {
    var sent := if e.SetManualPower? then SetManualPower(Clamp(e.power, MinPower, MaxPower)) else e;
    assert Step(w, Operator(e), cfg).events == Offer(w.events, EventCapacity, sent);
    OfferElements(w.events, EventCapacity, sent, SetMode(Automatic));
  }

  lemma DecisionStaysManual(w: World, cfg: Config)
    requires WellFormed(w) && ValidConfig(cfg) && !w.stopped
    requires w.shared.mode == Manual && NoAutomaticRequest(w.events)
    ensures var w' := Step(w, DecisionTick, cfg);
      w'.shared.mode == Manual && NoAutomaticRequest(w'.events) && w'.commands == w.commands
  {
    var r := DecisionCycle(w.shared, w.s, w.events, w.temperatures, w.pressures, w.commands, ChannelCapacity, cfg);
    var d := DrainEvents(w.shared, w.events);
    DrainEventsStaysManual(w.shared, w.events);
    assert r.shared.mode == d.shared.mode;
    if d.stop {
      assert r.events == w.events[|w.events| - |d.rest|..];
    }
  }

  lemma {:induction false} StepStaysManual(w: World, a: Action, cfg: Config)
    requires WellFormed(w) && ValidConfig(cfg) && Admissible(a, cfg)
    requires w.shared.mode == Manual && NoAutomaticRequest(w.events)
    requires a != Operator(SetMode(Automatic))
    ensures var w' := Step(w, a, cfg);
      && w'.shared.mode == Manual
      && NoAutomaticRequest(w'.events)
      && (w'.commands == w.commands || w'.commands == [])
  {
    if !w.stopped {
      match a
      case Operator(e) =>
        OperatorStaysManual(w, e, cfg);
      case TemperatureTick(_) =>
      case PressureTick(_) =>
      case DecisionTick =>
        DecisionStaysManual(w, cfg);
    }
  }

  /** Once in manual mode, as long as nobody asks for automatic mode, the
      controller stays in manual mode and no automatic command is ever
      published, however many cycles elapse: the command queue keeps what
      it held or is emptied. */
  lemma {:induction false} ManualPublishesNothing(w: World, t: seq<Action>, cfg: Config)
    requires WellFormed(w) && ValidConfig(cfg) && AllAdmissible(t, cfg)
    requires w.shared.mode == Manual && NoAutomaticRequest(w.events)
    requires NoAutomaticCommand(t)
    ensures var w' := Run(w, t, cfg);
      && w'.shared.mode == Manual
      && (w'.commands == w.commands || w'.commands == [])
    decreases |t|
  {
    if t != [] {
      assert t[0] in t;
      assert forall a :: a in t[1..] ==> a in t;
      StepStaysManual(w, t[0], cfg);
      ManualPublishesNothing(Step(w, t[0], cfg), t[1..], cfg);
    }
  }

  /** Actions other than P cycles leave P's own variables alone. */
  lemma {:induction false} OthersKeepPressureLocals(w: World, t: seq<Action>, cfg: Config)
    requires WellFormed(w) && ValidConfig(cfg) && AllAdmissible(t, cfg)
    requires forall i :: 0 <= i < |t| ==> !t[i].PressureTick?
    ensures Run(w, t, cfg).p == w.p
    decreases |t|
  {
    if t != [] {
      OthersKeepPressureLocals(Step(w, t[0], cfg), t[1..], cfg);
    }
  }

  /** Stale-command purge: if P last ran in automatic mode (or has not run)
      and, before its next cycle, the mode has become manual, that cycle
      empties the command queue, whatever it held, and applies the manual
      setpoint. */
  lemma PurgeOnEnteringManual(w: World, t: seq<Action>, cfg: Config, noise: real)
    requires ValidConfig(cfg) && AllAdmissible(t, cfg) && Inv(w, cfg)
    requires w.p.previousMode != Some(Manual)
    requires forall i :: 0 <= i < |t| ==> !t[i].PressureTick?
    ensures var w' := Run(w, t, cfg);
      w'.shared.mode == Manual ==>
        var r := PressureCycle(w'.p, w'.shared, w'.commands, cfg, noise);
        r.commands == [] && r.power == w'.shared.manualPower
  {
    OthersKeepPressureLocals(w, t, cfg);
    RunKeepsInv(w, t, cfg);
  }

}

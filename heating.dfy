/** The controller's tasks, one cycle at a time.

    The shared record `stare` is the class `SharedState`. Each periodic task
    (`task_t`, `task_p`, `task_s`) becomes a class whose fields are the
    variables its loop carries from one cycle to the next, and whose
    `Cycle` method is the body of that loop. Each `Cycle` is specified by a
    pure function of the old state (`TemperatureCycle`, `PressureCycle`,
    `DecisionCycle`), and the properties of the controller are proved about
    those functions. */
module Heating {
  import opened Wrappers
  import opened Control
  import opened Channels

  datatype Mode = Automatic | Manual

  /** Operator events: `set_mod`, `set_putere_manual`, `oprire`. */
  datatype Event = SetMode(mode: Mode) | SetManualPower(power: real) | Shutdown

  /** A thermocouple batch from T (its timestamp is not modelled). */
  datatype TemperatureSample = TemperatureSample(temperatures: seq<real>)

  /** A pressure reading from P: pressure and valve opening. */
  datatype PressureReading = PressureReading(pressure: real, valve: real)

  /** An automatic power command from S to P. */
  datatype Command = Command(power: real)

  /** The immutable configuration (`configurare`); task periods are timing
      and are not part of it here. */
  datatype Config = Config(
    referenceTemperature: real,
    comfortBand: real,
    ambientTemperature: real,
    maxHeatingDelta: real,
    temperatureResponse: real,
    referencePressure: real,
    maxSafePressure: real,
    thermocouples: nat)

  const DefaultConfig: Config := Config(22.0, 1.0, 18.0, 10.0, 0.08, 3.0, 4.0, 4)

  /** Capacity of the operator-event queue and of the three latest-value
      channels. */
  const EventCapacity: nat := 10
  const ChannelCapacity: nat := 1

  const MinPower: real := 0.0
  const MaxPower: real := 100.0

  predicate PowerInRange(p: real)
  {
    MinPower <= p <= MaxPower
  }

  /** The shared record: mode, manual setpoint, power in effect. */
  datatype Shared = Shared(mode: Mode, manualPower: real, currentPower: real)

  const InitialShared: Shared := Shared(Automatic, 30.0, 0.0)

  /** What the controller keeps true of the shared record: both powers in
      range, and in manual mode the setpoint is the power in effect. */
  predicate SharedInv(s: Shared)
  {
    && PowerInRange(s.manualPower)
    && PowerInRange(s.currentPower)
    && (s.mode == Manual ==> s.currentPower == s.manualPower)
  }

  // ---------------------------------------------------------------------
  // S: applying operator events

  /** One operator event applied to the shared record (`oprire` is handled
      by the drain and leaves the record alone). */
  function ApplyEvent(s: Shared, e: Event): (r: Shared)
    ensures r.mode == (if e.SetMode? then e.mode else s.mode)
    ensures r.manualPower == (if e.SetManualPower? then Clamp(e.power, MinPower, MaxPower) else s.manualPower)
    ensures !e.Shutdown? && r.mode == Manual ==> r.currentPower == r.manualPower
    ensures r.mode == Automatic ==> r.currentPower == s.currentPower
    ensures e.Shutdown? ==> r == s
  {
    match e
    case SetMode(m) =>
      if m == Manual then s.(mode := Manual, currentPower := s.manualPower)
      else s.(mode := m)
    case SetManualPower(v) =>
      var p := Clamp(v, MinPower, MaxPower);
      if s.mode == Manual then s.(manualPower := p, currentPower := p)
      else s.(manualPower := p)
    case Shutdown => s
  }

  lemma ApplyEventKeepsInv(s: Shared, e: Event)
    requires SharedInv(s)
    ensures SharedInv(ApplyEvent(s, e))
  {
  }

  /** The outcome of draining the event queue. */
  datatype Drained = Drained(shared: Shared, rest: seq<Event>, stop: bool)

  /** The event drain of one S cycle: events are applied in order until
      the queue is empty or an `oprire` is met. */
  function DrainEvents(s: Shared, events: seq<Event>): (d: Drained)
    ensures d.stop <==> exists i :: 0 <= i < |events| && events[i].Shutdown?
    ensures !d.stop ==> d.rest == []
    ensures d.stop ==> |d.rest| < |events| && events[|events| - |d.rest| - 1].Shutdown?
    ensures d.stop ==> d.rest == events[|events| - |d.rest|..]
    ensures d.stop ==> forall i :: 0 <= i < |events| - |d.rest| - 1 ==> !events[i].Shutdown?
    decreases |events|
  {
    if events == [] then Drained(s, [], false)
    else if events[0].Shutdown? then Drained(s, events[1..], true)
    else DrainEvents(ApplyEvent(s, events[0]), events[1..])
  }

  lemma {:induction false} DrainEventsKeepsInv(s: Shared, events: seq<Event>)
    requires SharedInv(s)
    ensures SharedInv(DrainEvents(s, events).shared)
    decreases |events|
  {
    if events != [] && !events[0].Shutdown? {
      ApplyEventKeepsInv(s, events[0]);
      DrainEventsKeepsInv(ApplyEvent(s, events[0]), events[1..]);
    }
  }

  /** Without a request for automatic mode among the events, a controller
      in manual mode is still in manual mode after the drain. */
  lemma {:induction false} DrainEventsStaysManual(s: Shared, events: seq<Event>)
    requires s.mode == Manual
    requires SetMode(Automatic) !in events
    ensures DrainEvents(s, events).shared.mode == Manual
    decreases |events|
  {
    if events != [] && !events[0].Shutdown? {
      assert events == [events[0]] + events[1..];
      DrainEventsStaysManual(ApplyEvent(s, events[0]), events[1..]);
    }
  }

  // ---------------------------------------------------------------------
  // S: the decision step

  /** A batch S can average (T always sends `numar_TC` readings). */
  predicate Readable(t: TemperatureSample)
  {
    |t.temperatures| > 0
  }

  predicate AllReadable(ts: seq<TemperatureSample>)
  {
    forall i :: 0 <= i < |ts| ==> Readable(ts[i])
  }

  /** The decision's outcome: the new shared record, the command to
      publish if any, and the comfort class (None: "necunoscut"). */
  datatype Decision = Decision(shared: Shared, command: Option<Command>, comfort: Option<Comfort>)

  /** The decision step: with a sample in automatic mode, the clamped
      proportional power becomes the power in effect and is published;
      otherwise the manual setpoint is the power in effect and nothing is
      published. */
  function Decide(s: Shared, sample: Option<TemperatureSample>, cfg: Config): (d: Decision)
    requires sample.Some? ==> Readable(sample.value)
    ensures d.command.Some? <==> s.mode == Automatic && sample.Some?
    ensures d.command.Some? ==> d.command.value.power == d.shared.currentPower && PowerInRange(d.shared.currentPower)
    ensures d.command.Some? ==>
      (d.shared.currentPower == Clamp(AutomaticPower(Mean(sample.value.temperatures), cfg.referenceTemperature), MinPower, MaxPower))
    ensures d.command.None? ==> d.shared.currentPower == s.manualPower
    ensures d.shared.mode == s.mode && d.shared.manualPower == s.manualPower
    ensures d.comfort.None? <==> sample.None?
    ensures sample.Some? ==>
      (d.comfort == Some(ClassifyComfort(Mean(sample.value.temperatures), cfg.referenceTemperature, cfg.comfortBand)))
  {
    match sample
    case None => Decision(s.(currentPower := s.manualPower), None, None)
    case Some(t) =>
      var mean := Mean(t.temperatures);
      var comfort := Some(ClassifyComfort(mean, cfg.referenceTemperature, cfg.comfortBand));
      if s.mode == Automatic then
        var p := Clamp(AutomaticPower(mean, cfg.referenceTemperature), MinPower, MaxPower);
        Decision(s.(currentPower := p), Some(Command(p)), comfort)
      else
        Decision(s.(currentPower := s.manualPower), None, comfort)
  }

  lemma DecideKeepsInv(s: Shared, sample: Option<TemperatureSample>, cfg: Config)
    requires SharedInv(s)
    requires sample.Some? ==> Readable(sample.value)
    ensures SharedInv(Decide(s, sample, cfg).shared)
  {
  }

  /** Variables `task_s` carries across cycles. */
  datatype SLocals = SLocals(lastTemperature: Option<TemperatureSample>, lastPressure: Option<PressureReading>)

  const InitialSLocals: SLocals := SLocals(None, None)

  /** One S cycle's effect on everything it touches. */
  datatype SStep = SStep(
    shared: Shared,
    locals: SLocals,
    events: seq<Event>,
    temperatures: seq<TemperatureSample>,
    pressures: seq<PressureReading>,
    commands: seq<Command>,
    stop: bool,
    comfort: Option<Comfort>)

  /** One cycle of `task_s`: drain events; on `oprire` stop there; else
      take the latest temperature and pressure, decide, publish. */
  function DecisionCycle(
    s: Shared, l: SLocals, events: seq<Event>, temperatures: seq<TemperatureSample>,
    pressures: seq<PressureReading>, commands: seq<Command>, capacity: nat, cfg: Config): (r: SStep)
    requires AllReadable(temperatures)
    requires l.lastTemperature.Some? ==> Readable(l.lastTemperature.value)
    requires 1 <= capacity && |commands| <= capacity
    ensures r.shared.mode == Manual ==> r.commands == commands
    ensures r.stop ==> r.commands == commands && r.temperatures == temperatures && r.pressures == pressures && r.locals == l
    ensures !r.stop ==> r.events == [] && r.temperatures == [] && r.pressures == []
    ensures !r.stop && r.shared.mode == Automatic && r.locals.lastTemperature.Some? ==>
      r.commands == Offer(commands, capacity, Command(r.shared.currentPower))
    ensures r.locals.lastTemperature.None? ==> r.commands == commands
    ensures r.locals.lastTemperature.Some? ==> Readable(r.locals.lastTemperature.value)
    ensures l.lastTemperature.Some? ==> r.locals.lastTemperature.Some?
  {
    var d := DrainEvents(s, events);
    if d.stop then
      SStep(d.shared, l, d.rest, temperatures, pressures, commands, true, None)
    else
      var lastT := LatestOr(temperatures, l.lastTemperature);
      var lastP := LatestOr(pressures, l.lastPressure);
      var dec := Decide(d.shared, lastT, cfg);
      var published := if dec.command.Some? then Offer(commands, capacity, dec.command.value) else commands;
      SStep(dec.shared, SLocals(lastT, lastP), [], [], [], published, false, dec.comfort)
  }

  lemma DecisionCycleKeepsInv(
    s: Shared, l: SLocals, events: seq<Event>, temperatures: seq<TemperatureSample>,
    pressures: seq<PressureReading>, commands: seq<Command>, capacity: nat, cfg: Config)
    requires SharedInv(s)
    requires AllReadable(temperatures)
    requires l.lastTemperature.Some? ==> Readable(l.lastTemperature.value)
    requires 1 <= capacity && |commands| <= capacity
    ensures SharedInv(DecisionCycle(s, l, events, temperatures, pressures, commands, capacity, cfg).shared)
  {
    var d := DrainEvents(s, events);
    DrainEventsKeepsInv(s, events);
    if !d.stop {
      var lastT := LatestOr(temperatures, l.lastTemperature);
      assert lastT.Some? ==> Readable(lastT.value);
      DecideKeepsInv(d.shared, lastT, cfg);
    }
  }

  // ---------------------------------------------------------------------
  // P: mode-transition purge, command selection, pressure and valve

  /** Variables `task_p` carries across cycles. */
  datatype PLocals = PLocals(pressure: real, valve: real, previousMode: Option<Mode>)

  /** P starts at the reference pressure with the valve closed, which is
      the valve's setting for that pressure, and has seen no mode yet. */
  function InitialPLocals(cfg: Config): (l: PLocals)
    ensures l.previousMode == None
    ensures cfg.maxSafePressure >= cfg.referencePressure ==>
      (l.valve == ValveAction(l.pressure, cfg.referencePressure, cfg.maxSafePressure))
  {
    PLocals(cfg.referencePressure, ValveClosed, None)
  }

  /** The power P uses this cycle and what is left in the command queue. */
  datatype Selection = Selection(power: real, commands: seq<Command>)

  /** Entering manual mode purges the command queue; in automatic mode the
      newest queued command, if any, overrides the shared power for this
      cycle and the queue is drained. */
  function SelectPower(s: Shared, previous: Option<Mode>, commands: seq<Command>): (sel: Selection)
    ensures s.mode == Manual && previous != Some(Manual) ==> sel.commands == []
    ensures s.mode == Manual && previous == Some(Manual) ==> sel.commands == commands
    ensures s.mode == Manual ==> sel.power == s.currentPower
    ensures s.mode == Automatic ==> sel.commands == []
    ensures s.mode == Automatic && commands == [] ==> sel.power == s.currentPower
    ensures s.mode == Automatic && commands != [] ==> sel.power == commands[|commands| - 1].power
  {
    var pending := if s.mode == Manual && previous != Some(Manual) then [] else commands;
    if s.mode == Automatic then
      match Latest(pending)
      case Some(c) => Selection(c.power, [])
      case None => Selection(s.currentPower, [])
    else
      Selection(s.currentPower, pending)
  }

  /** Gain of the pressure rise at full power, relaxation rate towards the
      reference, pressure relieved per unit of valve opening, and the
      amplitude of the pressure noise. */
  const PressureRise: real := 0.08
  const PressureDamping: real := 0.01
  const ValveRelief: real := 0.08
  const PressureNoise: real := 0.01

  /** Amplitude of the noise on each thermocouple reading. */
  const TemperatureNoise: real := 0.15

  /** Pressure after heating and relaxation, before the valve acts. With
      the heating off it relaxes towards the reference without passing it;
      at the reference it rises by exactly the heating term. */
  function RaisedPressure(pressure: real, power: real, reference: real): (p: real)
    ensures power == 0.0 && reference <= pressure ==> reference <= p <= pressure
    ensures power == 0.0 && pressure <= reference ==> pressure <= p <= reference
    ensures pressure == reference ==> p == reference + PressureRise * (power / 100.0)
  {
    pressure + PressureRise * (power / 100.0) + PressureDamping * (reference - pressure)
  }

  /** One P cycle's effect. */
  datatype PStep = PStep(locals: PLocals, commands: seq<Command>, reading: PressureReading, power: real)

  /** One cycle of `task_p`, with the random perturbation as `noise`. */
  function PressureCycle(l: PLocals, s: Shared, commands: seq<Command>, cfg: Config, noise: real): (r: PStep)
    ensures r.locals.previousMode == Some(s.mode)
    ensures r.power == SelectPower(s, l.previousMode, commands).power
    ensures r.commands == SelectPower(s, l.previousMode, commands).commands
    ensures r.reading == PressureReading(r.locals.pressure, r.locals.valve)
    ensures r.locals.valve == ValveAction(RaisedPressure(l.pressure, r.power, cfg.referencePressure),
                                          cfg.referencePressure, cfg.maxSafePressure)
    ensures r.locals.pressure ==
      RaisedPressure(l.pressure, r.power, cfg.referencePressure) - ValveRelief * r.locals.valve + noise
  {
    var sel := SelectPower(s, l.previousMode, commands);
    var raised := RaisedPressure(l.pressure, sel.power, cfg.referencePressure);
    var valve := ValveAction(raised, cfg.referencePressure, cfg.maxSafePressure);
    var p := raised - ValveRelief * valve + noise;
    PStep(PLocals(p, valve, Some(s.mode)), sel.commands, PressureReading(p, valve), sel.power)
  }

  /** The relief valve keeps the pressure at most `PressureNoise` above
      the safety maximum, whatever power in range is applied, provided the
      maximum is at least 0.99 above the reference (4.0 against 3.0 in the
      default configuration). */
  lemma PressureStaysBounded(l: PLocals, s: Shared, commands: seq<Command>, cfg: Config, noise: real)
    requires cfg.maxSafePressure >= cfg.referencePressure + 0.99
    requires l.pressure <= cfg.maxSafePressure + PressureNoise
    requires -PressureNoise <= noise <= PressureNoise
    requires PowerInRange(s.currentPower)
    requires forall i :: 0 <= i < |commands| ==> PowerInRange(commands[i].power)
    ensures PressureCycle(l, s, commands, cfg, noise).locals.pressure <= cfg.maxSafePressure + PressureNoise
  {
    var r := PressureCycle(l, s, commands, cfg, noise);
    assert PowerInRange(r.power);
    var raised := RaisedPressure(l.pressure, r.power, cfg.referencePressure);
    assert raised <= 0.99 * l.pressure + 0.01 * cfg.referencePressure + PressureRise;
    if raised > cfg.maxSafePressure {
      assert r.locals.valve == ValveOpen;
      assert r.locals.pressure == raised - ValveRelief + noise;
    } else {
      assert r.locals.valve >= 0.0;
    }
  }

  // ---------------------------------------------------------------------
  // T: first-order lag towards the heating target, one reading per
  // thermocouple

  /** The temperature the room tends to at a given power: the ambient
      temperature with the heating off, the ambient plus the maximum
      heating delta at full power. */
  function TargetTemperature(cfg: Config, power: real): (t: real)
    ensures power == MinPower ==> t == cfg.ambientTemperature
    ensures power == MaxPower ==> t == cfg.ambientTemperature + cfg.maxHeatingDelta
  {
    cfg.ambientTemperature + cfg.maxHeatingDelta * (power / 100.0)
  }

  /** The base temperature after one cycle of relaxation towards the
      target: the target is a fixed point, and a response rate of 1 reaches
      the target in one cycle. */
  function NextBase(cfg: Config, base: real, power: real): (b: real)
    ensures base == TargetTemperature(cfg, power) ==> b == base
    ensures cfg.temperatureResponse == 1.0 ==> b == TargetTemperature(cfg, power)
  {
    base + cfg.temperatureResponse * (TargetTemperature(cfg, power) - base)
  }

  /** One reading per thermocouple: the base temperature plus that
      thermocouple's noise. */
  function Batch(base: real, noise: seq<real>): (readings: seq<real>)
    ensures |readings| == |noise|
    ensures forall i :: 0 <= i < |noise| ==> readings[i] - base == noise[i]
  {
    seq(|noise|, i requires 0 <= i < |noise| => base + noise[i])
  }

  /** The relaxation never overshoots: the new base lies between the old
      base and the target. */
  lemma NextBaseBetween(cfg: Config, base: real, power: real)
    requires 0.0 <= cfg.temperatureResponse <= 1.0
    ensures base <= TargetTemperature(cfg, power) ==>
      base <= NextBase(cfg, base, power) <= TargetTemperature(cfg, power)
    ensures TargetTemperature(cfg, power) <= base ==>
      TargetTemperature(cfg, power) <= NextBase(cfg, base, power) <= base
  {
    LagBetween(base, TargetTemperature(cfg, power), cfg.temperatureResponse, NextBase(cfg, base, power));
  }

  /** A step of a fraction `a` of the way from `b` to `t` lands between them. */
  lemma LagBetween(b: real, t: real, a: real, next: real)
    requires 0.0 <= a <= 1.0
    requires next == b + a * (t - b)
    ensures b <= t ==> b <= next <= t
    ensures t <= b ==> t <= next <= b
  {
    var x := t - b;
    ScaleBetween(a, x);
    assert next == b + a * x;
  }

  /** A fraction of a quantity lies between zero and the quantity. */
  lemma ScaleBetween(a: real, x: real)
    requires 0.0 <= a <= 1.0
    ensures 0.0 <= x ==> 0.0 <= a * x <= x
    ensures x <= 0.0 ==> x <= a * x <= 0.0
  {
    assert x - a * x == (1.0 - a) * x;
    if 0.0 <= x {
      assert 0.0 <= (1.0 - a) * x;
    } else {
      assert (1.0 - a) * x <= 0.0;
    }
  }

  /** With power in range, the base temperature stays between the ambient
      temperature and the ambient plus the maximum heating delta. */
  lemma BaseStaysInRange(cfg: Config, base: real, power: real)
    requires 0.0 <= cfg.temperatureResponse <= 1.0 && 0.0 <= cfg.maxHeatingDelta
    requires PowerInRange(power)
    requires cfg.ambientTemperature <= base <= cfg.ambientTemperature + cfg.maxHeatingDelta
    ensures cfg.ambientTemperature <= NextBase(cfg, base, power) <= cfg.ambientTemperature + cfg.maxHeatingDelta
  {
    ScaleBetween(power / 100.0, cfg.maxHeatingDelta);
    assert cfg.maxHeatingDelta * (power / 100.0) == (power / 100.0) * cfg.maxHeatingDelta;
    var t := TargetTemperature(cfg, power);
    assert cfg.ambientTemperature <= t <= cfg.ambientTemperature + cfg.maxHeatingDelta;
    NextBaseBetween(cfg, base, power);
  }

  /** The mean S computes from a batch is within the noise amplitude of
      T's base temperature. */
  lemma BatchMeanNearBase(base: real, noise: seq<real>, amplitude: real)
    requires |noise| > 0
    requires forall i :: 0 <= i < |noise| ==> -amplitude <= noise[i] <= amplitude
    ensures base - amplitude <= Mean(Batch(base, noise)) <= base + amplitude
  {
    MeanBetween(Batch(base, noise), base - amplitude, base + amplitude);
  }

  /** One T cycle's effect: the new base temperature and the batch sent. */
  datatype TStep = TStep(base: real, sample: TemperatureSample)

  /** One cycle of `task_t`, with the thermocouple noise as `noise`. */
  function TemperatureCycle(base: real, s: Shared, cfg: Config, noise: seq<real>): (r: TStep)
    ensures r.base == NextBase(cfg, base, s.currentPower)
    ensures |r.sample.temperatures| == |noise|
    ensures forall i :: 0 <= i < |noise| ==> r.sample.temperatures[i] == r.base + noise[i]
  {
    var b := NextBase(cfg, base, s.currentPower);
    TStep(b, TemperatureSample(Batch(b, noise)))
  }

  // ---------------------------------------------------------------------
  // The shared record and the tasks as objects

  /** `stare`, updated in place by S and read by T and P. */
  class SharedState {
    var mode: Mode
    var manualPower: real
    var currentPower: real

    constructor ()
      ensures View() == InitialShared
    {
      mode := Automatic;
      manualPower := 30.0;
      currentPower := 0.0;
    }

    function View(): Shared
      reads this
    {
      Shared(mode, manualPower, currentPower)
    }
  }

  /** `task_t`; `base` is `temperatura_baza`. */
  class TemperatureTask {
    var base: real

    constructor (cfg: Config)
      ensures base == cfg.ambientTemperature
    {
      base := cfg.ambientTemperature;
    }

    method Cycle(cfg: Config, st: SharedState, temperatures: BoundedQueue<TemperatureSample>, noise: seq<real>)
      requires temperatures.Valid()
      requires |noise| == cfg.thermocouples
      modifies this, temperatures
      ensures temperatures.Valid()
      ensures var r := TemperatureCycle(old(base), st.View(), cfg, noise);
        base == r.base && temperatures.items == Offer(old(temperatures.items), temperatures.capacity, r.sample)
    {
      ghost var r := TemperatureCycle(base, st.View(), cfg, noise);
      var power := st.currentPower;
      var target := cfg.ambientTemperature + cfg.maxHeatingDelta * (power / 100.0);
      assert target == TargetTemperature(cfg, power);
      base := base + cfg.temperatureResponse * (target - base);
      assert base == r.base;
      var readings: seq<real> := [];
      for i := 0 to cfg.thermocouples
        invariant |readings| == i
        invariant forall k :: 0 <= k < i ==> readings[k] == base + noise[k]
      {
        readings := readings + [base + noise[i]];
      }
      assert TemperatureSample(readings) == r.sample;
      temperatures.Publish(TemperatureSample(readings));
    }
  }

  /** `task_p`; its fields are `presiune`, `actiune_valva`, `mod_anterioar`. */
  class PressureTask {
    var pressure: real
    var valve: real
    var previousMode: Option<Mode>

    constructor (cfg: Config)
      ensures Locals() == InitialPLocals(cfg)
    {
      pressure := cfg.referencePressure;
      valve := ValveClosed;
      previousMode := None;
    }

    function Locals(): PLocals
      reads this
    {
      PLocals(pressure, valve, previousMode)
    }

    /** The first half of a P iteration: read the shared record, purge
        the command queue on entering manual mode, remember the mode, and
        in automatic mode take the newest command. */
    method SelectCommand(st: SharedState, commands: BoundedQueue<Command>) returns (power: real)
      requires commands.Valid()
      modifies this, commands
      ensures commands.Valid()
      ensures var sel := SelectPower(st.View(), old(previousMode), old(commands.items));
        power == sel.power && commands.items == sel.commands
      ensures previousMode == Some(st.mode) && pressure == old(pressure) && valve == old(valve)
    {
      var mode := st.mode;
      power := st.currentPower;
      if mode == Manual && previousMode != Some(Manual) {
        commands.Clear();
      }
      previousMode := Some(mode);
      if mode == Automatic {
        var last := commands.TakeLatest();
        if last.Some? {
          power := last.value.power;
        }
      }
    }

    method Cycle(cfg: Config, st: SharedState, commands: BoundedQueue<Command>,
                 pressures: BoundedQueue<PressureReading>, noise: real)
      requires commands.Valid() && pressures.Valid()
      modifies this, commands, pressures
      ensures commands.Valid() && pressures.Valid()
      ensures var r := PressureCycle(old(Locals()), st.View(), old(commands.items), cfg, noise);
        && Locals() == r.locals
        && commands.items == r.commands
        && pressures.items == Offer(old(pressures.items), pressures.capacity, r.reading)
    {
      ghost var r := PressureCycle(Locals(), st.View(), commands.items, cfg, noise);
      var power := SelectCommand(st, commands);
      var raised := RaisedPressure(pressure, power, cfg.referencePressure);
      valve := ValveAction(raised, cfg.referencePressure, cfg.maxSafePressure);
      pressure := raised - ValveRelief * valve + noise;
      assert Locals() == r.locals && commands.items == r.commands;
      assert PressureReading(pressure, valve) == r.reading;
      pressures.Publish(PressureReading(pressure, valve));
    }
  }

  /** `task_s`; its fields are `ultima_temperatura` and `ultima_presiune`. */
  class DecisionTask {
    var lastTemperature: Option<TemperatureSample>
    var lastPressure: Option<PressureReading>

    constructor ()
      ensures Locals() == InitialSLocals
    {
      lastTemperature := None;
      lastPressure := None;
    }

    function Locals(): SLocals
      reads this
    {
      SLocals(lastTemperature, lastPressure)
    }

    /** The non-blocking event drain at the top of each S cycle. */
    method ApplyPendingEvents(st: SharedState, events: BoundedQueue<Event>) returns (stop: bool)
      requires events.Valid()
      modifies st, events
      ensures events.Valid()
      ensures var d := DrainEvents(old(st.View()), old(events.items));
        st.View() == d.shared && events.items == d.rest && stop == d.stop
    {
      stop := false;
      while true
        invariant events.Valid()
        invariant DrainEvents(st.View(), events.items) == DrainEvents(old(st.View()), old(events.items))
        invariant !stop
        decreases |events.items|
      {
        var ev := events.GetNoWait();
        if ev.None? {
          break;
        }
        match ev.value
        case Shutdown =>
          stop := true;
          break;
        case SetMode(m) =>
          st.mode := m;
          if m == Manual {
            st.currentPower := st.manualPower;
          }
        case SetManualPower(v) =>
          var p := Clamp(v, MinPower, MaxPower);
          st.manualPower := p;
          if st.mode == Manual {
            st.currentPower := st.manualPower;
          }
      }
    }

    /** After the event drain: take the newest temperature and pressure,
        keeping the previous ones when nothing new has arrived. */
    method ReadInputs(temperatures: BoundedQueue<TemperatureSample>, pressures: BoundedQueue<PressureReading>)
      requires temperatures.Valid() && pressures.Valid()
      modifies this, temperatures, pressures
      ensures temperatures.Valid() && pressures.Valid()
      ensures temperatures.items == [] && pressures.items == []
      ensures lastTemperature == LatestOr(old(temperatures.items), old(lastTemperature))
      ensures lastPressure == LatestOr(old(pressures.items), old(lastPressure))
    {
      var t := temperatures.TakeLatest();
      if t.Some? {
        lastTemperature := t;
      }
      var p := pressures.TakeLatest();
      if p.Some? {
        lastPressure := p;
      }
    }

    /** The decision: comfort from the held sample, then either the
        automatic power put in effect and published, or the manual
        setpoint put in effect. */
    method DecideAndPublish(cfg: Config, st: SharedState, commands: BoundedQueue<Command>)
      returns (comfort: Option<Comfort>)
      requires commands.Valid()
      requires lastTemperature.Some? ==> Readable(lastTemperature.value)
      modifies st, commands
      ensures commands.Valid()
      ensures var d := Decide(old(st.View()), lastTemperature, cfg);
        && st.View() == d.shared && comfort == d.comfort
        && commands.items == (if d.command.Some? then Offer(old(commands.items), commands.capacity, d.command.value)
                              else old(commands.items))
    {
      var mean: real := 0.0;
      if lastTemperature.Some? {
        mean := Mean(lastTemperature.value.temperatures);
        comfort := Some(ClassifyComfort(mean, cfg.referenceTemperature, cfg.comfortBand));
      } else {
        comfort := None;
      }
      var mode := st.mode;
      var manualPower := st.manualPower;
      if mode == Automatic && lastTemperature.Some? {
        var power := Clamp(AutomaticPower(mean, cfg.referenceTemperature), MinPower, MaxPower);
        st.currentPower := power;
        commands.Publish(Command(power));
      } else {
        st.currentPower := manualPower;
      }
    }

    /** One S cycle; `comfort` is the classification the status line
        would show. */
    method Cycle(cfg: Config, st: SharedState, events: BoundedQueue<Event>,
                 temperatures: BoundedQueue<TemperatureSample>, commands: BoundedQueue<Command>,
                 pressures: BoundedQueue<PressureReading>)
      returns (stop: bool, comfort: Option<Comfort>)
      requires events.Valid() && temperatures.Valid() && commands.Valid() && pressures.Valid()
      requires AllReadable(temperatures.items)
      requires lastTemperature.Some? ==> Readable(lastTemperature.value)
      modifies this, st, events, temperatures, commands, pressures
      ensures events.Valid() && temperatures.Valid() && commands.Valid() && pressures.Valid()
      ensures var r := DecisionCycle(old(st.View()), old(Locals()), old(events.items), old(temperatures.items),
                                     old(pressures.items), old(commands.items), commands.capacity, cfg);
        && st.View() == r.shared && Locals() == r.locals
        && events.items == r.events && temperatures.items == r.temperatures
        && pressures.items == r.pressures && commands.items == r.commands
        && stop == r.stop && comfort == r.comfort
    {
      stop := ApplyPendingEvents(st, events);
      if stop {
        comfort := None;
        return;
      }
      ReadInputs(temperatures, pressures);
      comfort := DecideAndPublish(cfg, st, commands);
    }
  }

}

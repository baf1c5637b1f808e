/** The objects `main` creates and wires together, driven one action at a
    time; each action is proved to have exactly the effect `Step` gives it. */
module Wiring {
  import opened Wrappers
  import opened Control
  import opened Channels
  import opened Heating
  import opened Simulation

  class Plant {
    const cfg: Config
    const stare: SharedState
    const events: BoundedQueue<Event>
    const temperatures: BoundedQueue<TemperatureSample>
    const commands: BoundedQueue<Command>
    const pressures: BoundedQueue<PressureReading>
    const taskT: TemperatureTask
    const taskP: PressureTask
    const taskS: DecisionTask
    var stopped: bool

    ghost predicate Valid()
      reads this, events, temperatures, commands, pressures, taskS
    {
      && ValidConfig(cfg)
      && events.Valid() && events.capacity == EventCapacity
      && temperatures.Valid() && temperatures.capacity == ChannelCapacity
      && commands.Valid() && commands.capacity == ChannelCapacity
      && pressures.Valid() && pressures.capacity == ChannelCapacity
      && AllReadable(temperatures.items)
      && (taskS.lastTemperature.Some? ==> Readable(taskS.lastTemperature.value))
    }

    function Snapshot(): World
      reads this, stare, events, temperatures, commands, pressures, taskT, taskP, taskS
    {
      World(stare.View(), events.items, temperatures.items, commands.items, pressures.items,
            taskT.base, taskP.Locals(), taskS.Locals(), stopped)
    }

    constructor (cfg: Config)
      requires ValidConfig(cfg)
      ensures Valid() && this.cfg == cfg
      ensures Snapshot() == Initial(cfg)
    {
      this.cfg := cfg;
      stare := new SharedState();
      events := new BoundedQueue<Event>(EventCapacity);
      temperatures := new BoundedQueue<TemperatureSample>(ChannelCapacity);
      commands := new BoundedQueue<Command>(ChannelCapacity);
      pressures := new BoundedQueue<PressureReading>(ChannelCapacity);
      taskT := new TemperatureTask(cfg);
      taskP := new PressureTask(cfg);
      taskS := new DecisionTask();
      stopped := false;
    }

    /** One command typed at the SW console. */
    method OperatorCommand(e: Event)
      requires Valid()
      modifies this, events
      ensures Valid()
      ensures Snapshot() == Step(old(Snapshot()), Operator(e), cfg)
    {
      if stopped {
        return;
      }
      ghost var w := Snapshot();
      var sent := if e.SetManualPower? then SetManualPower(Clamp(e.power, MinPower, MaxPower)) else e;
      events.Publish(sent);
      if e.Shutdown? {
        stopped := true;
      }
      assert Snapshot() == w.(events := Offer(w.events, EventCapacity, sent), stopped := e.Shutdown?);
      assert Snapshot() == Submit(w, e);
    }

    /** One cycle of T. */
    method RunTemperatureCycle(noise: seq<real>)
      requires Valid() && Admissible(TemperatureTick(noise), cfg)
      modifies taskT, temperatures
      ensures Valid()
      ensures Snapshot() == Step(old(Snapshot()), TemperatureTick(noise), cfg)
    {
      if stopped {
        return;
      }
      ghost var w := Snapshot();
      taskT.Cycle(cfg, stare, temperatures, noise);
      assert Snapshot() == TemperatureStep(w, noise, cfg);
    }

    /** One cycle of P. */
    method RunPressureCycle(noise: real)
      requires Valid() && Admissible(PressureTick(noise), cfg)
      modifies taskP, commands, pressures
      ensures Valid()
      ensures Snapshot() == Step(old(Snapshot()), PressureTick(noise), cfg)
    {
      if stopped {
        return;
      }
      ghost var w := Snapshot();
      taskP.Cycle(cfg, stare, commands, pressures, noise);
      assert Snapshot() == PressureStep(w, noise, cfg);
    }

    /** One cycle of S; it sets `stop_event` when it drains `oprire`. */
    method RunDecisionCycle() returns (comfort: Option<Comfort>)
      requires Valid()
      modifies this, stare, events, temperatures, commands, pressures, taskS
      ensures Valid()
      ensures Snapshot() == Step(old(Snapshot()), DecisionTick, cfg)
    {
      if stopped {
        return None;
      }
      var stop;
      ghost var w := Snapshot();
      stop, comfort := taskS.Cycle(cfg, stare, events, temperatures, commands, pressures);
      stopped := stop;
      assert Snapshot() == DecisionStep(w, cfg);
    }
  }
}

/**
  The "Auto Character Rendering" tweak: every ten seconds it reads the
  game's DisplayObjectLimitType setting (0 renders the most characters, 4 the
  fewest), measures GPU usage and frame rate, and moves the setting by at
  most one level towards the target frame rate.

  The decision is a pure function of the setting read, the usage, two frame
  rate samples (the source reads the frame rate at most once in each test) and the
  configured target. The game's configuration store and the tweak's timer are
  objects whose fields change in place.
 */
module AutoCharaRender {
  import opened GpuCounters

  /** The C# `uint` the setting is read into and written from. */
  newtype uint32 = x: int | 0 <= x < 0x1_0000_0000

  /** The highest level the tweak steps down to (fewest characters rendered). */
  const MaxLevel: uint32 := 4

  /** GPU usage above this steps down; only usage below it can step up. */
  const UsageLimit: real := 80.0

  /** Frame rate below DownFactor * target steps down. */
  const DownFactor: real := 0.8

  /** Frame rate above UpFactor * target may step up. */
  const UpFactor: real := 0.95

  /** The timer interval Enable sets, in milliseconds. */
  const TickIntervalMs: int := 10000

  /** Interval of a freshly constructed System.Timers.Timer, in milliseconds. */
  const DefaultTimerIntervalMs: int := 100

  /** Value of the "Target FPS" option before the user changes it. */
  const DefaultFpsTarget: int := 80

  /**
    What one tick measured: GPU usage, and the frame rate as read in the
    step-down and in the step-up test. A test that stops before its frame rate
    comparison does not read the frame rate, and its sample then plays no part.
   */
  datatype Sample = Sample(usage: real, fpsAtDownTest: real, fpsAtUpTest: real)

  /** StepDown raises the setting (fewer characters), StepUp lowers it (more characters). */
  datatype Step = StepDown | StepUp | Hold

  /** The step-down test on usage and frame rate, without the bound on the setting. */
  predicate Overloaded(usage: real, fps: real, target: int) {
    usage > UsageLimit || fps < target as real * DownFactor
  }

  /** The step-up test on usage and frame rate, without the bound on the setting. */
  predicate HasHeadroom(usage: real, fps: real, target: int) {
    usage < UsageLimit && fps > target as real * UpFactor
  }

  /** A tick's decision: the step-down rule is tried first, the step-up rule only when it fails. */
  function Decide(current: uint32, s: Sample, target: int): (step: Step)
    ensures step == StepDown ==> current < MaxLevel
    ensures step == StepUp ==> 0 < current && s.usage < UsageLimit
    ensures step == StepUp ==> !(current < MaxLevel && Overloaded(s.usage, s.fpsAtDownTest, target))
  {
    if current < MaxLevel && Overloaded(s.usage, s.fpsAtDownTest, target) then StepDown
    else if current > 0 && HasHeadroom(s.usage, s.fpsAtUpTest, target) then StepUp
    else Hold
  }

  /** The setting after a tick that read `current`. */
  function Next(current: uint32, s: Sample, target: int): (n: uint32)
    ensures current as int - 1 <= n as int <= current as int + 1
    ensures Decide(current, s, target) == StepDown ==> n as int == current as int + 1
    ensures Decide(current, s, target) == StepUp ==> n as int == current as int - 1
    ensures n == current <==> Decide(current, s, target) == Hold
    ensures current <= MaxLevel ==> n <= MaxLevel
    ensures current == MaxLevel ==> n <= current
    ensures current == 0 ==> n >= current
    ensures s.usage == UsageLimit ==> n >= current
  {
    match Decide(current, s, target)
    case StepDown => current + 1
    case StepUp => current - 1
    case Hold => current
  }

  /** The values a tick writes to the store: none when it holds, otherwise the new setting once. */
  function Writes(current: uint32, s: Sample, target: int): (w: seq<uint32>)
    ensures |w| <= 1
    ensures w == [] <==> Next(current, s, target) == current
    ensures forall k :: 0 <= k < |w| ==> w[k] == Next(current, s, target) && w[k] != current
  {
    if Decide(current, s, target) == Hold then [] else [Next(current, s, target)]
  }

  /** Step-down happens exactly when the setting is below 4 and usage or the first frame rate sample says so. */
  lemma StepDownExactly(current: uint32, s: Sample, target: int)
    ensures Decide(current, s, target) == StepDown <==>
      current < MaxLevel && (s.usage > 80.0 || s.fpsAtDownTest < target as real * 0.8)
  {
  }

  /** Step-up happens exactly when step-down does not, the setting is above 0, usage is below 80 and the second sample is above 0.95 of the target. */
  lemma StepUpExactly(current: uint32, s: Sample, target: int)
    ensures Decide(current, s, target) == StepUp <==>
      !(current < MaxLevel && (s.usage > 80.0 || s.fpsAtDownTest < target as real * 0.8)) &&
      current > 0 && s.usage < 80.0 && s.fpsAtUpTest > target as real * 0.95
  {
  }

  /** Step-down has priority: when it applies, the second frame rate sample does not matter. */
  lemma StepDownPriority(current: uint32, s: Sample, target: int, otherFps: real)
    requires current < MaxLevel && Overloaded(s.usage, s.fpsAtDownTest, target)
    ensures Next(current, s, target) == current + 1
    ensures Next(current, s.(fpsAtUpTest := otherFps), target) == current + 1
  {
  }

  /** Dead band: usage at most 80 and a frame rate between 0.8 and 0.95 of the target leave the setting alone. */
  lemma DeadBand(current: uint32, s: Sample, target: int)
    requires s.usage <= UsageLimit
    requires target as real * DownFactor <= s.fpsAtDownTest
    requires s.fpsAtUpTest <= target as real * UpFactor
    ensures Next(current, s, target) == current
    ensures Writes(current, s, target) == []
  {
  }

  /**
    Hysteresis: with one frame rate reading used in both tests (and a
    non-negative frame rate), a sample that made the tweak step down would not
    step it back up at the new level.
   */
  lemma NoReversalAfterStepDown(current: uint32, s: Sample, target: int)
    requires s.fpsAtDownTest == s.fpsAtUpTest >= 0.0
    requires Decide(current, s, target) == StepDown
    ensures Decide(Next(current, s, target), s, target) != StepUp
  {
  }

  /** The converse: a sample that made the tweak step up would not step it back down at the new level. */
  lemma NoReversalAfterStepUp(current: uint32, s: Sample, target: int)
    requires s.fpsAtDownTest == s.fpsAtUpTest >= 0.0
    requires Decide(current, s, target) == StepUp
    ensures Decide(Next(current, s, target), s, target) != StepDown
  {
  }

  /** The frame rate is read twice; two different readings can make one level step down and the next step back up. */
  lemma TwoReadingsCanReverse()
    ensures var s := Sample(50.0, 10.0, 100.0);
      Next(3, s, 80) == 4 && Next(4, s, 80) == 3
  {
  }

  /** Worked cases at the default target of 80: two step-downs (usage and frame rate), one step-up, and the floor and the ceiling. */
  lemma Scenarios()
    ensures Next(2, Sample(90.0, 100.0, 100.0), DefaultFpsTarget) == 3
    ensures Next(2, Sample(50.0, 60.0, 60.0), DefaultFpsTarget) == 3
    ensures Next(3, Sample(30.0, 79.0, 79.0), DefaultFpsTarget) == 2
    ensures Next(0, Sample(10.0, 200.0, 200.0), DefaultFpsTarget) == 0
    ensures Next(4, Sample(95.0, 10.0, 10.0), DefaultFpsTarget) == 4
  {
  }

  /**
    The game's configuration store, as far as DisplayObjectLimitType goes:
    its value, whether reading it succeeds, and the values written to it.
   */
  class GameConfig {
    var value: uint32
    var readable: bool
    var writes: seq<uint32>

    constructor (value: uint32, readable: bool)
      ensures this.value == value && this.readable == readable && writes == []
    {
      this.value := value;
      this.readable := readable;
      writes := [];
    }

    /**
      TryGet: reports whether the read succeeded and, when it did, the value.
      What the host leaves in the out-parameter on failure is not part of
      this model; 0 stands for it and no contract depends on it.
     */
    method TryGet() returns (found: bool, v: uint32)
      ensures found == readable
      ensures found ==> v == value
    {
      found := readable;
      v := if readable then value else 0;
    }

    /** Set: stores the value and records the write. */
    method Set(v: uint32)
      modifies this`value, this`writes
      ensures value == v
      ensures writes == old(writes) + [v]
    {
      value := v;
      writes := writes + [v];
    }
  }

  /** The tweak object: its configured target and its timer's state. */
  class CharaRendering {
    var fpsTarget: int
    var interval: int
    var running: bool
    /** How many times Timer_Elapsed is attached to the timer's Elapsed event. */
    var handlers: nat

    /** A new tweak with the target the configuration holds (80 unless the user changed it). */
    constructor (fpsTarget: int)
      ensures this.fpsTarget == fpsTarget
      ensures interval == DefaultTimerIntervalMs && !running && handlers == 0
    {
      this.fpsTarget := fpsTarget;
      interval := DefaultTimerIntervalMs;
      running := false;
      handlers := 0;
    }

    /** Attaches one more handler, sets the ten-second interval and starts the timer. */
    method Enable()
      modifies this`handlers, this`interval, this`running
      ensures handlers == old(handlers) + 1
      ensures interval == TickIntervalMs && running
    {
      handlers := handlers + 1;
      interval := TickIntervalMs;
      running := true;
    }

    /** Stops the timer; the handler stays attached. */
    method Disable()
      modifies this`running
      ensures !running
      ensures handlers == old(handlers) && interval == old(interval)
    {
      running := false;
    }

    /**
      One tick. The read's success flag is ignored, so the decision always
      runs on the value read; at most one value is written, and it is the
      setting Next computes. Returns the value the decision used.
     */
    method TimerElapsed(store: GameConfig, instances: seq<Instance>, fpsAtDownTest: real, fpsAtUpTest: real)
      returns (current: uint32)
      modifies store`value, store`writes
      ensures old(store.readable) ==> current == old(store.value)
      ensures var s := Sample(GpuUsage(GetCounters(instances)), fpsAtDownTest, fpsAtUpTest);
        && store.writes == old(store.writes) + Writes(current, s, fpsTarget)
        && store.value == if Writes(current, s, fpsTarget) == [] then old(store.value) else Next(current, s, fpsTarget)
    {
      var usage := GpuUsage(GetCounters(instances));
      ghost var s := Sample(usage, fpsAtDownTest, fpsAtUpTest);
      var found;
      found, current := store.TryGet();
      if current < MaxLevel && (usage > UsageLimit || fpsAtDownTest < fpsTarget as real * DownFactor) {
        assert Decide(current, s, fpsTarget) == StepDown;
        store.Set(current + 1);
      } else if current > 0 && usage < UsageLimit && fpsAtUpTest > fpsTarget as real * UpFactor {
        assert Decide(current, s, fpsTarget) == StepUp;
        store.Set(current - 1);
      } else {
        assert Decide(current, s, fpsTarget) == Hold;
      }
    }
  }

  /**
    Enable, Disable, Enable on a new tweak: the timer runs again, and since
    Disable does not detach the handler, each elapsed interval now runs the
    tick twice.
   */
  method ReEnableAttachesTwice(fpsTarget: int) returns (handlers: nat, running: bool, interval: int)
    ensures handlers == 2 && running && interval == TickIntervalMs
  {
    var tweak := new CharaRendering(fpsTarget);
    tweak.Enable();
    tweak.Disable();
    tweak.Enable();
    handlers, running, interval := tweak.handlers, tweak.running, tweak.interval;
  }

  /** Enable then Disable: the timer is stopped but one handler is still attached. */
  method DisableKeepsHandler(fpsTarget: int) returns (handlers: nat, running: bool)
    ensures handlers == 1 && !running
  {
    var tweak := new CharaRendering(fpsTarget);
    tweak.Enable();
    tweak.Disable();
    handlers, running := tweak.handlers, tweak.running;
  }
}

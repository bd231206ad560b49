/** The titration session: the mutable state of the simulator (volumes, the
    current pH, the recorded curve, the last point, the equivalence latch, the
    running flag and the solution colour) and the operations that change it:
    initialize, addBase, one frame of animate, and the equivalence check of
    updateDisplay.

    Each operation is given twice: as a pure transition function on a State
    value, about which the invariants are proved, and as a method of the class
    Simulator, whose fields are the simulator's globals and which is proved to
    follow the transition function. */
module Titration {
  import opened Chemistry

  datatype Option<T> = None | Some(value: T)

  /** Acid in the flask after every reset (mL). */
  const ACID_VOLUME: real := 25.0
  /** Capacity of the burette (mL): the base volume is clamped to it. */
  const MAX_BASE_VOLUME: real := 50.0
  /** mL of base per animation frame and unit of speed. */
  const BASE_ADDED_INTERVAL: real := 0.1

  /** One point of the titration curve. */
  datatype Sample = Sample(volume: real, pH: real)

  datatype Volume = Volume(acid: real, base: real)

  /** What the steps read but never write: the selected titration type, the
      molarities, and the logarithm and square root used for pH. */
  datatype Setup = Setup(simulationType: SimulationType, concentration: Concentration, math: Transcendentals)

  /** The globals the steps write. A color of None is the neutral grey that a
      reset gives the solution of a known titration type before the first
      step. */
  datatype State = State(
    volume: Volume,
    pH: real,
    data: seq<Sample>,
    lastPoint: Option<Sample>,
    equivalencePoint: Option<real>,
    running: bool,
    color: Option<ColorBand>)

  function Min(a: real, b: real): real {
    if a <= b then a else b
  }

  /** The equivalence volume for the acid currently in the flask. */
  function EquivalenceOf(setup: Setup, s: State): real
    requires ValidConcentration(setup.concentration)
  {
    EquivalenceVolume(s.volume.acid, setup.concentration)
  }

  /** The pH the engine gives `baseVol` mL into a titration of the default flask. */
  function CurvePH(setup: Setup, baseVol: real): real
    requires ValidConcentration(setup.concentration) && baseVol >= 0.0
  {
    CalculatePH(setup.math, setup.simulationType, setup.concentration, ACID_VOLUME, baseVol)
  }

  /** The equivalence check of updateDisplay: once the base volume reaches the
      equivalence volume, that volume is recorded, unless one is recorded
      already. The test is on falsiness, so a recorded 0 counts as none. */
  function AfterLatch(setup: Setup, s: State): State
    requires ValidConcentration(setup.concentration)
  {
    var eqPoint := EquivalenceOf(setup, s);
    if s.volume.base >= eqPoint && (s.equivalencePoint == None || s.equivalencePoint == Some(0.0))
    then s.(equivalencePoint := Some(eqPoint))
    else s
  }

  /** The colour after updateTitrationType: the neutral grey for each of the
      three known types; its switch has no default case, so an unrecognised
      type keeps the colour it had. */
  function ResetColor(t: SimulationType, previous: Option<ColorBand>): (color: Option<ColorBand>)
    ensures !t.Other? ==> color == None
    ensures t.Other? ==> color == previous
  {
    match t
    case Other(_) => previous
    case _ => None
  }

  /** The first half of initialize: the volumes, the curve, the pH and the
      equivalence point are cleared, the colour is reset for a known type,
      and the display runs its equivalence check. */
  function ClearedState(setup: Setup, running: bool, color: Option<ColorBand>): State
    requires ValidConcentration(setup.concentration)
  {
    AfterLatch(setup, State(Volume(ACID_VOLUME, 0.0), 0.0, [], None, None, running,
      ResetColor(setup.simulationType, color)))
  }

  /** What initialize leaves behind: the cleared state with the point at
      0 mL recorded, after a second equivalence check. It does not touch
      `running`, and for an unrecognised type it keeps the colour `color`. */
  function InitialState(setup: Setup, running: bool, color: Option<ColorBand>): State
    requires ValidConcentration(setup.concentration)
  {
    var initialPH := CalculatePH(setup.math, setup.simulationType, setup.concentration, ACID_VOLUME, 0.0);
    AfterLatch(setup, ClearedState(setup, running, color).(
      pH := initialPH,
      data := [Sample(0.0, initialPH)],
      lastPoint := Some(Sample(0.0, initialPH))))
  }

  /** The common tail of addBase and animate: move the base volume, recompute
      pH and colour, record the point, then run the equivalence check. */
  function AfterRecord(setup: Setup, s: State, newBase: real): State
    requires ValidConcentration(setup.concentration) && s.volume.acid > 0.0 && newBase >= 0.0
  {
    var pH := CalculatePH(setup.math, setup.simulationType, setup.concentration, s.volume.acid, newBase);
    AfterLatch(setup, s.(
      volume := s.volume.(base := newBase),
      pH := pH,
      color := Some(GetSolutionColor(pH)),
      data := s.data + [Sample(newBase, pH)],
      lastPoint := Some(Sample(newBase, pH))))
  }

  /** The base volume after a dose: the burette never delivers past 50 mL,
      and a non-negative dose never lowers the volume. */
  function DosedVolume(base: real, amount: real): (v: real)
    ensures v <= MAX_BASE_VOLUME
    ensures v == MAX_BASE_VOLUME || v == base + amount
    ensures base + amount <= MAX_BASE_VOLUME ==> v == base + amount
    ensures base <= MAX_BASE_VOLUME && amount >= 0.0 ==> base <= v
  {
    Min(base + amount, MAX_BASE_VOLUME)
  }

  /** The base volume after one animation frame at the given speed. */
  function NextFrameVolume(base: real, speed: nat): (v: real)
    ensures v <= MAX_BASE_VOLUME
    ensures v < MAX_BASE_VOLUME ==> v == base + BASE_ADDED_INTERVAL * speed as real
    ensures base + BASE_ADDED_INTERVAL * speed as real <= MAX_BASE_VOLUME ==>
      v == base + BASE_ADDED_INTERVAL * speed as real
    ensures base <= MAX_BASE_VOLUME ==> base <= v
  {
    DosedVolume(base, BASE_ADDED_INTERVAL * speed as real)
  }

  /** addBase(amount). */
  function AfterAddBase(setup: Setup, s: State, amount: real): State
    requires ValidConcentration(setup.concentration) && s.volume.acid > 0.0
    requires s.volume.base >= 0.0 && amount >= 0.0
  {
    AfterRecord(setup, s, DosedVolume(s.volume.base, amount))
  }

  /** One call of animate at the given speed: nothing happens unless running;
      otherwise the base volume advances and running stops at the burette's
      capacity. */
  function AfterAnimate(setup: Setup, s: State, speed: nat): State
    requires ValidConcentration(setup.concentration) && s.volume.acid > 0.0 && s.volume.base >= 0.0
  {
    if !s.running then s
    else
      var newBase := NextFrameVolume(s.volume.base, speed);
      var stopped := if newBase >= MAX_BASE_VOLUME then s.(running := false) else s;
      AfterRecord(setup, stopped, newBase)
  }

  /** The base volume after `n` frames of an animation that keeps running:
      the volume that animate's rescheduling loop moves through. */
  function FramesVolume(base: real, speed: nat, n: nat): real
    decreases n
  {
    if n == 0 then base else FramesVolume(NextFrameVolume(base, speed), speed, n - 1)
  }

  /** After `n` frames the base volume is min(base + n × 0.1 × speed, 50): the
      animation adds 0.1 mL per frame and unit of speed until the burette's
      50 mL are reached, and stays there. */
  lemma {:induction false} FramesVolumeClosedForm(base: real, speed: nat, n: nat)
    requires base <= MAX_BASE_VOLUME
    ensures FramesVolume(base, speed, n) ==
      Min(base + n as real * (BASE_ADDED_INTERVAL * speed as real), MAX_BASE_VOLUME)
    decreases n
  {
    if n > 0 {
      var step := BASE_ADDED_INTERVAL * speed as real;
      var next := NextFrameVolume(base, speed);
      FramesVolumeClosedForm(next, speed, n - 1);
      assert n as real * step == step + (n - 1) as real * step;
      if base + step <= MAX_BASE_VOLUME {
        assert next == base + step;
      } else {
        assert next == MAX_BASE_VOLUME;
        assert (n - 1) as real * step >= 0.0;
      }
    }
  }

  /** With a positive speed, an animation started at `base` mL has reached
      50 mL, and so has stopped, after 500 / speed frames. */
  lemma AnimationFinishes(base: real, speed: nat, n: nat)
    requires 0.0 <= base <= MAX_BASE_VOLUME && speed > 0
    requires n as real * (BASE_ADDED_INTERVAL * speed as real) >= MAX_BASE_VOLUME
    ensures FramesVolume(base, speed, n) == MAX_BASE_VOLUME
  {
    FramesVolumeClosedForm(base, speed, n);
  }

  /** The invariant of a session between two operations: the acid volume is
      the reset value, the base volume lies in [0, 50], the curve starts at
      0 mL, is ordered by volume and ends in the current point, every sample
      holds the engine's pH for its volume, a colour shown is the band of
      the current pH (except the colour an unrecognised type carries over
      from before its reset, until the first step), and an equivalence point
      is recorded exactly when the base volume has reached it. */
  ghost predicate Inv(setup: Setup, s: State) {
    ValidConcentration(setup.concentration) &&
    s.volume.acid == ACID_VOLUME &&
    0.0 <= s.volume.base <= MAX_BASE_VOLUME &&
    |s.data| >= 1 &&
    s.data[0].volume == 0.0 &&
    s.data[|s.data| - 1] == Sample(s.volume.base, s.pH) &&
    s.lastPoint == Some(s.data[|s.data| - 1]) &&
    (forall i, j :: 0 <= i < j < |s.data| ==> s.data[i].volume <= s.data[j].volume) &&
    (forall i :: 0 <= i < |s.data| ==>
       0.0 <= s.data[i].volume <= MAX_BASE_VOLUME && s.data[i].pH == CurvePH(setup, s.data[i].volume)) &&
    (s.color.Some? ==>
       s.color.value == GetSolutionColor(s.pH) || (setup.simulationType.Other? && |s.data| == 1)) &&
    s.equivalencePoint ==
      (if s.volume.base >= EquivalenceOf(setup, s) then Some(EquivalenceOf(setup, s)) else None)
  }

  /** initialize starts a session with the single point at 0 mL, 25 mL of acid
      and no equivalence point. */
  lemma InitialStateFacts(setup: Setup, running: bool, color: Option<ColorBand>)
    requires ValidConcentration(setup.concentration)
    ensures var s := InitialState(setup, running, color);
      Inv(setup, s) &&
      s.volume == Volume(ACID_VOLUME, 0.0) &&
      s.data == [Sample(0.0, CurvePH(setup, 0.0))] &&
      s.equivalencePoint == None &&
      s.running == running &&
      (!setup.simulationType.Other? ==> s.color == None)
  {
    assert EquivalenceVolume(ACID_VOLUME, setup.concentration) > 0.0;
  }

  /** addBase clamps the base volume at 50 mL, appends exactly one sample that
      is also the new last point, keeps the earlier samples and the acid
      volume, and keeps the invariant. */
  lemma AddBaseStep(setup: Setup, s: State, amount: real)
    requires Inv(setup, s) && amount >= 0.0
    ensures var r := AfterAddBase(setup, s, amount);
      Inv(setup, r) &&
      r.volume == Volume(s.volume.acid, DosedVolume(s.volume.base, amount)) &&
      s.volume.base <= r.volume.base &&
      r.data == s.data + [Sample(r.volume.base, r.pH)] &&
      r.lastPoint == Some(Sample(r.volume.base, r.pH)) &&
      r.running == s.running
  {
    RecordStep(setup, s, DosedVolume(s.volume.base, amount));
  }

  /** One animate frame changes nothing unless running; while running it
      advances the base volume by 0.1 mL per unit of speed up to 50 mL,
      appends one sample, and stops running exactly when 50 mL is reached. */
  lemma AnimateStep(setup: Setup, s: State, speed: nat)
    requires Inv(setup, s)
    ensures var r := AfterAnimate(setup, s, speed);
      Inv(setup, r) &&
      (!s.running ==> r == s) &&
      (s.running ==>
        r.volume == Volume(s.volume.acid, NextFrameVolume(s.volume.base, speed)) &&
        r.data == s.data + [Sample(r.volume.base, r.pH)] &&
        r.lastPoint == Some(Sample(r.volume.base, r.pH)) &&
        (r.running <==> r.volume.base < MAX_BASE_VOLUME))
  {
    if s.running {
      var newBase := NextFrameVolume(s.volume.base, speed);
      var stopped := if newBase >= MAX_BASE_VOLUME then s.(running := false) else s;
      RecordStep(setup, stopped, newBase);
    }
  }

  /** Recording a point at a base volume no smaller than the current one, and
      at most 50 mL, keeps the invariant. */
  lemma RecordStep(setup: Setup, s: State, newBase: real)
    requires Inv(setup, s) && s.volume.base <= newBase <= MAX_BASE_VOLUME
    ensures var r := AfterRecord(setup, s, newBase);
      Inv(setup, r) &&
      r.volume == s.volume.(base := newBase) &&
      r.data == s.data + [Sample(newBase, r.pH)] &&
      r.running == s.running
  {
    var e := EquivalenceOf(setup, s);
    assert e > 0.0;
    var pH := CalculatePH(setup.math, setup.simulationType, setup.concentration, s.volume.acid, newBase);
    var data := s.data + [Sample(newBase, pH)];
    var recorded := s.(
      volume := s.volume.(base := newBase),
      pH := pH,
      color := Some(GetSolutionColor(pH)),
      data := data,
      lastPoint := Some(Sample(newBase, pH)));
    assert AfterRecord(setup, s, newBase) == AfterLatch(setup, recorded);
    assert AfterLatch(setup, recorded).equivalencePoint == if newBase >= e then Some(e) else None;
    forall i, j | 0 <= i < j < |data|
      ensures data[i].volume <= data[j].volume
    {
      if j < |s.data| {
        assert data[i] == s.data[i] && data[j] == s.data[j];
      } else if i < |s.data| - 1 {
        assert s.data[i].volume <= s.data[|s.data| - 1].volume;
      }
    }
    forall i | 0 <= i < |data|
      ensures 0.0 <= data[i].volume <= MAX_BASE_VOLUME && data[i].pH == CurvePH(setup, data[i].volume)
    {
      if i < |s.data| {
        assert data[i] == s.data[i];
      }
    }
  }

  /** The operations a user can trigger during one session: the two dosing
      buttons (0.1 mL and 1.0 mL), start, stop, and an animation frame at the
      speed the slider shows. A reset or a change of type or molarity starts
      a new session. */
  datatype Event = AddSmall | AddLarge | Start | Stop | Frame(speed: nat)

  function Apply(setup: Setup, s: State, e: Event): State
    requires ValidConcentration(setup.concentration) && s.volume.acid > 0.0 && s.volume.base >= 0.0
  {
    match e
    case AddSmall => AfterAddBase(setup, s, 0.1)
    case AddLarge => AfterAddBase(setup, s, 1.0)
    case Start => s.(running := true)
    case Stop => s.(running := false)
    case Frame(speed) => AfterAnimate(setup, s, speed)
  }

  /** The state after a sequence of events, while the invariant holds. */
  ghost function Run(setup: Setup, s: State, events: seq<Event>): State
    requires Inv(setup, s)
    decreases |events|
  {
    if events == [] then s
    else
      ApplyStep(setup, s, events[0]);
      Run(setup, Apply(setup, s, events[0]), events[1..])
  }

  lemma ApplyStep(setup: Setup, s: State, e: Event)
    requires Inv(setup, s)
    ensures var r := Apply(setup, s, e);
      Inv(setup, r) &&
      r.volume.acid == s.volume.acid &&
      s.volume.base <= r.volume.base &&
      s.data <= r.data
  {
    match e
    case AddSmall =>
      assert Apply(setup, s, e) == AfterAddBase(setup, s, 0.1);
      AddBaseStep(setup, s, 0.1);
    case AddLarge =>
      assert Apply(setup, s, e) == AfterAddBase(setup, s, 1.0);
      AddBaseStep(setup, s, 1.0);
    case Start =>
    case Stop =>
    case Frame(speed) =>
      assert Apply(setup, s, e) == AfterAnimate(setup, s, speed);
      AnimateStep(setup, s, speed);
  }

  /** Within one session, whatever the user does: the acid volume never
      changes, the base volume never decreases and never exceeds 50 mL, the
      curve only grows at its end, and the equivalence point, once recorded,
      never changes and is recorded only once the base volume has reached it. */
  lemma {:induction false} SessionHistory(setup: Setup, s: State, events: seq<Event>)
    requires Inv(setup, s)
    ensures var r := Run(setup, s, events);
      Inv(setup, r) &&
      r.volume.acid == s.volume.acid &&
      s.volume.base <= r.volume.base <= MAX_BASE_VOLUME &&
      s.data <= r.data &&
      (s.equivalencePoint.Some? ==> r.equivalencePoint == s.equivalencePoint) &&
      (r.equivalencePoint.Some? ==>
         r.equivalencePoint.value == EquivalenceOf(setup, r) && r.volume.base >= r.equivalencePoint.value)
    decreases |events|
  {
    if events != [] {
      var next := Apply(setup, s, events[0]);
      ApplyStep(setup, s, events[0]);
      SessionHistory(setup, next, events[1..]);
    }
  }

  /** `n` animation frames at one speed. */
  function Frames(speed: nat, n: nat): seq<Event> {
    seq(n, _ => Frame(speed))
  }

  /** Running `n` frames is one frame, then the other `n - 1`. */
  lemma FirstFrame(setup: Setup, s: State, speed: nat, n: nat)
    requires Inv(setup, s) && n > 0
    ensures Inv(setup, AfterAnimate(setup, s, speed))
    ensures Run(setup, s, Frames(speed, n)) == Run(setup, AfterAnimate(setup, s, speed), Frames(speed, n - 1))
  {
    var events := Frames(speed, n);
    assert events[0] == Frame(speed) && events[1..] == Frames(speed, n - 1);
    AnimateStep(setup, s, speed);
  }

  /** Frames after the animation has stopped change nothing. */
  lemma {:induction false} IdleFrames(setup: Setup, s: State, speed: nat, n: nat)
    requires Inv(setup, s) && !s.running
    ensures Run(setup, s, Frames(speed, n)) == s
    decreases n
  {
    if n > 0 {
      FirstFrame(setup, s, speed, n);
      IdleFrames(setup, s, speed, n - 1);
    }
  }

  /** animate's rescheduling loop: from a running session, `n` frames leave
      the base volume at FramesVolume, that is at
      min(base + n × 0.1 × speed, 50). */
  lemma {:induction false} AnimationLoop(setup: Setup, s: State, speed: nat, n: nat)
    requires Inv(setup, s) && s.running
    ensures Run(setup, s, Frames(speed, n)).volume.base == FramesVolume(s.volume.base, speed, n)
    decreases n
  {
    if n > 0 {
      FirstFrame(setup, s, speed, n);
      AnimateStep(setup, s, speed);
      var next := AfterAnimate(setup, s, speed);
      assert next.volume.base == NextFrameVolume(s.volume.base, speed);
      if next.running {
        AnimationLoop(setup, next, speed, n - 1);
      } else {
        IdleFrames(setup, next, speed, n - 1);
        assert next.volume.base == MAX_BASE_VOLUME;
        StaysFull(speed, n - 1);
      }
    }
  }

  /** Once the burette's 50 mL are reached, further frames keep it there. */
  lemma StaysFull(speed: nat, n: nat)
    ensures FramesVolume(MAX_BASE_VOLUME, speed, n) == MAX_BASE_VOLUME
  {
    FramesVolumeClosedForm(MAX_BASE_VOLUME, speed, n);
    assert n as real * (BASE_ADDED_INTERVAL * speed as real) >= 0.0;
  }

  /** The simulator's globals and the operations on them. */
  class Simulator {
    var simulationType: SimulationType
    var concentration: Concentration
    var volume: Volume
    var running: bool
    var speed: nat
    var pH: real
    var data: seq<Sample>
    var equivalencePoint: Option<real>
    var lastPoint: Option<Sample>
    var color: Option<ColorBand>
    const math: Transcendentals

    function CurrentSetup(): Setup
      reads this`simulationType, this`concentration
    {
      Setup(simulationType, concentration, math)
    }

    function Snapshot(): State
      reads this
    {
      State(volume, pH, data, lastPoint, equivalencePoint, running, color)
    }

    ghost predicate Valid()
      reads this
    {
      Inv(CurrentSetup(), Snapshot())
    }

    /** The globals' starting values, then initialize(). */
    constructor (math: Transcendentals)
      ensures CurrentSetup() == Setup(StrongAcidStrongBase, Concentration(0.1, 0.1), math)
      ensures Snapshot() == InitialState(CurrentSetup(), false, None) && speed == 10
      ensures Valid()
    {
      simulationType := StrongAcidStrongBase;
      concentration := Concentration(0.1, 0.1);
      volume := Volume(ACID_VOLUME, 0.0);
      running := false;
      speed := 10;
      pH := 0.0;
      data := [];
      equivalencePoint := None;
      lastPoint := None;
      color := None;
      this.math := math;
      new;
      Initialize();
    }

    /** The equivalence check of updateDisplay. */
    method UpdateDisplay()
      requires ValidConcentration(concentration)
      modifies this`equivalencePoint
      ensures Snapshot() == AfterLatch(CurrentSetup(), old(Snapshot()))
    {
      var eqPoint := EquivalenceVolume(volume.acid, concentration);
      if volume.base >= eqPoint && (equivalencePoint == None || equivalencePoint == Some(0.0)) {
        equivalencePoint := Some(eqPoint);
      }
    }

    /** The first half of initialize, up to its first display update. */
    method Clear()
      requires ValidConcentration(concentration)
      modifies this`volume, this`pH, this`data, this`lastPoint, this`equivalencePoint, this`color
      ensures Snapshot() == ClearedState(CurrentSetup(), running, old(color))
    {
      volume := Volume(ACID_VOLUME, 0.0);
      data := [];
      pH := 0.0;
      equivalencePoint := None;
      lastPoint := None;
      if !simulationType.Other? {
        color := None;
      }
      UpdateDisplay();
    }

    method Initialize()
      requires ValidConcentration(concentration)
      modifies this`volume, this`pH, this`data, this`lastPoint, this`equivalencePoint, this`color
      ensures Snapshot() == InitialState(CurrentSetup(), old(running), old(color))
      ensures CurrentSetup() == old(CurrentSetup()) && speed == old(speed)
      ensures Valid()
    {
      InitialStateFacts(CurrentSetup(), running, color);
      Clear();
      var initialPH := CalculatePH(math, simulationType, concentration, volume.acid, 0.0);
      pH := initialPH;
      data := [Sample(0.0, initialPH)];
      lastPoint := Some(Sample(0.0, initialPH));
      UpdateDisplay();
    }

    /** The common tail of addBase and animate: move the base volume,
        recompute pH and colour, record the point, check for equivalence. */
    method RecordPoint(newBaseVolume: real)
      requires ValidConcentration(concentration) && volume.acid > 0.0 && newBaseVolume >= 0.0
      modifies this`volume, this`pH, this`data, this`lastPoint, this`equivalencePoint, this`color
      ensures CurrentSetup() == old(CurrentSetup()) && speed == old(speed)
      ensures Snapshot() == AfterRecord(CurrentSetup(), old(Snapshot()), newBaseVolume)
    {
      volume := volume.(base := newBaseVolume);
      pH := CalculatePH(math, simulationType, concentration, volume.acid, volume.base);
      color := Some(GetSolutionColor(pH));
      data := data + [Sample(volume.base, pH)];
      lastPoint := Some(Sample(volume.base, pH));
      UpdateDisplay();
    }

    method AddBase(amount: real)
      requires Valid() && amount >= 0.0
      modifies this`volume, this`pH, this`data, this`lastPoint, this`equivalencePoint, this`color, this`running
      ensures Snapshot() == AfterAddBase(CurrentSetup(), old(Snapshot()), amount)
      ensures CurrentSetup() == old(CurrentSetup()) && speed == old(speed)
      ensures Valid()
    {
      AddBaseStep(CurrentSetup(), Snapshot(), amount);
      var newBaseVolume := DosedVolume(volume.base, amount);
      RecordPoint(newBaseVolume);
    }

    /** One call of animate; `reschedule` says whether it asks for another frame. */
    method Animate() returns (reschedule: bool)
      requires Valid()
      modifies this`volume, this`pH, this`data, this`lastPoint, this`equivalencePoint, this`color, this`running
      ensures Snapshot() == AfterAnimate(CurrentSetup(), old(Snapshot()), speed)
      ensures reschedule == running && (reschedule ==> old(running))
      ensures CurrentSetup() == old(CurrentSetup()) && speed == old(speed)
      ensures Valid()
    {
      AnimateStep(CurrentSetup(), Snapshot(), speed);
      reschedule := false;
      if running {
        var newBaseVolume := NextFrameVolume(volume.base, speed);
        if newBaseVolume >= MAX_BASE_VOLUME {
          running := false;
        }
        RecordPoint(newBaseVolume);
        reschedule := running;
      }
    }

    /** The start button: the animation runs from the next frame on. */
    method Start()
      requires Valid()
      modifies this`running
      ensures Valid() && running
      ensures Snapshot() == old(Snapshot()).(running := true)
    {
      running := true;
    }

    /** The stop button. */
    method Stop()
      requires Valid()
      modifies this`running
      ensures Valid() && !running
      ensures Snapshot() == old(Snapshot()).(running := false)
    {
      running := false;
    }

    /** The reset button: stop, then initialize. */
    method Reset()
      requires Valid()
      modifies this`volume, this`pH, this`data, this`lastPoint, this`equivalencePoint, this`color, this`running
      ensures CurrentSetup() == old(CurrentSetup()) && speed == old(speed)
      ensures Snapshot() == InitialState(CurrentSetup(), false, old(color))
      ensures Valid()
    {
      running := false;
      Initialize();
    }

    /** A new titration type is selected: initialize under it. */
    method SelectType(t: SimulationType)
      requires Valid()
      modifies this`simulationType, this`volume, this`pH, this`data, this`lastPoint, this`equivalencePoint, this`color
      ensures CurrentSetup() == old(CurrentSetup()).(simulationType := t)
      ensures speed == old(speed) && running == old(running)
      ensures Snapshot() == InitialState(CurrentSetup(), running, old(color))
      ensures Valid()
    {
      simulationType := t;
      Initialize();
    }

    /** A new acid molarity is entered: initialize under it. */
    method SetAcidConcentration(molarity: real)
      requires Valid() && molarity > 0.0
      modifies this`concentration, this`volume, this`pH, this`data, this`lastPoint, this`equivalencePoint, this`color
      ensures CurrentSetup() == old(CurrentSetup()).(concentration := old(concentration).(acid := molarity))
      ensures speed == old(speed) && running == old(running)
      ensures Snapshot() == InitialState(CurrentSetup(), running, old(color))
      ensures Valid()
    {
      concentration := concentration.(acid := molarity);
      Initialize();
    }

    /** A new base molarity is entered: initialize under it. */
    method SetBaseConcentration(molarity: real)
      requires Valid() && molarity > 0.0
      modifies this`concentration, this`volume, this`pH, this`data, this`lastPoint, this`equivalencePoint, this`color
      ensures CurrentSetup() == old(CurrentSetup()).(concentration := old(concentration).(base := molarity))
      ensures speed == old(speed) && running == old(running)
      ensures Snapshot() == InitialState(CurrentSetup(), running, old(color))
      ensures Valid()
    {
      concentration := concentration.(base := molarity);
      Initialize();
    }

    /** The speed slider moves: nothing else changes. */
    method SetSpeed(newSpeed: nat)
      modifies this`speed
      ensures speed == newSpeed
    {
      speed := newSpeed;
    }
  }
}

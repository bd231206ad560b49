# Titration curves — a Dafny model of the pH engine and the titration session

The simulator titrates 25 mL of acid with base from a 50 mL burette. It
supports three titration types: strong acid and strong base (HCl + NaOH),
weak acid and strong base (ethanoic acid + NaOH), and strong acid and weak base
(HCl + ammonia). It draws the pH curve as base is added, either by the two
dosing buttons (0.1 mL and 1.0 mL) or by an animation that adds 0.1 mL per
frame and per unit of speed.

The model has two modules:

- `Chemistry` (chemistry.dfy) covers the pure part of `script.js`. `CalculatePH`
  first chooses a formula through `SelectBranch`. Each branch is tagged
  ExcessAcid, ExcessBase, Equivalence, Buffer, InitialWeakAcid, or Default for
  an unrecognised type. The module also has `EquivalenceVolume`
  (calculateEquivalencePoint) and `GetSolutionColor`, which returns one of five
  colour bands instead of a hex string. `Math.log10` and `Math.sqrt` are left
  uninterpreted: they are passed in as a `Transcendentals` record of functions
  over positive reals, and the square root is positive on positive arguments.
  The only pH values the model fixes exactly are therefore the literal 7s.
- `Titration` (session.dfy) covers the mutable part. The class `Simulator`
  has one field per global of the script (`simulationType`, `concentration`,
  `volume`, `running`, `speed`, `pH`, `data`, `equivalencePoint`, `lastPoint`,
  and the solution colour). Its methods are `initialize`, `addBase`, one call
  of `animate`, the equivalence check of `updateDisplay`, and the button and
  selector handlers. Each method is proved to follow a pure transition
  function on a `State` value (`AfterAddBase`, `AfterAnimate`, `AfterLatch`,
  `InitialState`). The invariant `Inv` and the properties of the session are
  proved about those functions, including `SessionHistory` over any sequence
  of user events.

All arithmetic is on exact reals.

## Model

| member | source | states |
|---|---|---|
| `Chemistry.EquivalenceVolume` | script.js:274-279 | the result is the base volume whose moles equal the moles of acid in the flask, and it is positive for a positive acid volume |
| `Chemistry.DefaultEquivalenceVolume` | script.js:8-15 | with the default 25 mL of 0.1 mol/L acid and 0.1 mol/L base, equivalence is at exactly 25 mL |
| `Chemistry.MolesOrder` | script.js:199-200 | with positive molarities, nBase < nAcid, nBase == nAcid and nBase > nAcid hold exactly when the base volume is below, at or above the equivalence volume |
| `Chemistry.BranchAt` | script.js:204-270 | calculatePH's branch depends only on where the base volume lies relative to the equivalence volume. Strong/strong: excess acid, equivalence, excess base. Weak acid: initial weak-acid formula iff no base is added, buffer otherwise, then equivalence, then excess base. Weak base: excess acid, equivalence, then buffer. Unrecognised type: default |
| `Chemistry.CalculatePH` | script.js:217-269 | calculatePH is exactly 7 at the equivalence volume of a strong acid and a strong base, and for any unrecognised titration type; every other branch is defined on its positive concentrations |
| `Chemistry.GetSolutionColor` | script.js:282-289 | every pH gets exactly one of five bands: below 4; 4 to below 6; 6 to 8 inclusive; above 8 to below 11; 11 and above |
| `Chemistry.ColorMonotone` | script.js:284-288 | a higher pH never gets a more acidic band |
| `Titration.ResetColor` | script.js:168-192 | updateTitrationType gives the grey colour for each of the three known types and, having no default case, leaves the colour of an unrecognised type as it was |
| `Titration.DosedVolume` | script.js:476 | a dose never takes the base volume past 50 mL; when the dose fits the result is exactly the old volume plus the dose, otherwise 50 mL, and a non-negative dose never lowers the volume |
| `Titration.NextFrameVolume` | script.js:364 | one frame adds exactly 0.1 mL per unit of speed when that fits below 50 mL, and stops at 50 mL otherwise; it never lowers the volume |
| `Titration.FramesVolumeClosedForm` | script.js:362-391 | after n frames of the animation loop the base volume is min(base + n × 0.1 × speed, 50) |
| `Titration.AnimationFinishes` | script.js:364-368 | with a positive speed, once n × 0.1 × speed reaches 50 mL the loop has reached the burette's 50 mL |
| `Titration.StaysFull` | script.js:364 | frames at a full burette leave the base volume at 50 mL, as a consequence of `FramesVolumeClosedForm` |
| `Titration.InitialStateFacts` | script.js:147-166 | initialize leaves 25 mL of acid and 0 mL of base, a curve holding only the point at 0 mL with the engine's pH, no equivalence point, `running` unchanged, the grey colour for a known type, and the session invariant holds |
| `Titration.RecordStep` | script.js:374-385 | recording a point at a base volume no smaller than the current one and at most 50 mL moves the base volume, appends one sample, keeps `running` and keeps the invariant |
| `Titration.AddBaseStep` | script.js:475-485 | addBase sets the base volume to min(old + amount, 50), so it never decreases; it appends exactly one sample, which is also the new last point, even at 50 mL; it keeps the earlier samples, the acid volume, `running` and the invariant |
| `Titration.AnimateStep` | script.js:362-393 | a frame changes nothing unless running; while running it sets the base volume to min(base + 0.1 × speed, 50), appends one sample that is also the last point, and keeps running exactly while the new volume is below 50 |
| `Titration.ApplyStep` | script.js:396-453 | each user event (dosing buttons, start, stop, a frame) keeps the invariant and the acid volume, never lowers the base volume, and only appends to the curve |
| `Titration.SessionHistory` | script.js:298-300 | over any sequence of events within one session, the acid volume is constant, the base volume is non-decreasing and at most 50 mL, the curve is append-only, and the equivalence point is set at most once, only once the base volume has reached the equivalence volume, and then stays unchanged |
| `Titration.FirstFrame` | script.js:389-391 | n frames are one frame followed by n - 1 frames, and the frame keeps the invariant |
| `Titration.IdleFrames` | script.js:362-363 | frames arriving once the session has stopped leave the state unchanged |
| `Titration.AnimationLoop` | script.js:362-391 | from a running session, n frames of the event model move the base volume exactly as `FramesVolume` says, whether or not the animation stops on the way |
| `Titration.Simulator.constructor` | script.js:6-21 | the globals start as in the script (strong/strong, 0.1 mol/L each, speed 10, not running), then initialize runs |
| `Titration.Simulator.UpdateDisplay` | script.js:297-300 | the equivalence volume is recorded when the base volume has reached it and no non-zero one is recorded yet; nothing else changes |
| `Titration.Simulator.Clear` | script.js:147-154 | the volumes, curve, pH, last point and equivalence point are reset; the colour goes back to grey for the three known types and is kept for an unrecognised one; then the equivalence check runs |
| `Titration.Simulator.Initialize` | script.js:147-166 | the new state is `InitialState` of the old colour, the titration type, molarities and speed are unchanged, and the invariant holds |
| `Titration.Simulator.RecordPoint` | script.js:374-386 | the new state is the old one with the base volume moved, the pH and colour recomputed, one sample appended, the last point set and the equivalence check run |
| `Titration.Simulator.AddBase` | script.js:475-497 | the new state is `AfterAddBase` of the old one, and the invariant holds |
| `Titration.Simulator.Animate` | script.js:362-393 | the new state is `AfterAnimate` of the old one; another frame is requested exactly when still running, and only if it was running before |
| `Titration.Simulator.Start` | script.js:396-407 | only `running` changes, and it becomes true |
| `Titration.Simulator.Stop` | script.js:409-424 | only `running` changes, and it becomes false |
| `Titration.Simulator.Reset` | script.js:426-445 | the session is back in `InitialState` with `running` false |
| `Titration.Simulator.SelectType` | script.js:455-458 | the titration type changes and the session is reinitialised under it |
| `Titration.Simulator.SetAcidConcentration` | script.js:460-463 | the acid molarity changes and the session is reinitialised under it |
| `Titration.Simulator.SetBaseConcentration` | script.js:465-468 | the base molarity changes and the session is reinitialised under it |
| `Titration.Simulator.SetSpeed` | script.js:470-472 | the speed takes the new value |

## Left out

- Rendering is left out: the SVG axes, path and circle (`initializeSVG`, `appendSVGElement`, `updateGraph`), the text and style updates of `updateDisplay`, and the description strings of `updateTitrationType`. Only the solution colour is kept, as a band: `None` stands for the neutral grey that a reset sets for the three known types; for an unrecognised type the reset keeps the previous colour, since updateTitrationType has no default case.
- Button enabling and disabling is left out, so the event model allows every event in every state. Some orders are impossible in the page, for example dosing while the animation runs.
- Scheduling with `requestAnimationFrame` and `cancelAnimationFrame` is left out. `Animate` is one frame and returns whether it asks for another; the caller loops. A second start while running, which would schedule a second loop in the page, is not modelled.
- The numeric values of `Math.log10` and `Math.sqrt` are not modelled, so the approximate pH figures (about 1.0, 2.87, 4.74, 12.5) are not stated.
- Floating point is not modelled. Comparisons such as nAcid == nBase and `volume.base >= eqPoint` are exact real comparisons. Doubles stepped by 0.1 mL may miss the equivalence volume exactly, where the reals hit it.
- Parsing of form values is not modelled. Molarities are required to be positive, and the speed is a natural number. A NaN, zero or negative value from the form would give infinities or NaN in the script.
- `Titration.Simulator.AddBase`: requires a non-negative amount. The only callers pass 0.1 and 1.0.
- The equivalence test has no tolerance, a dose at 50 mL still records a sample, and there is no Finished status beyond the `running` flag. The model keeps all three as the code has them.

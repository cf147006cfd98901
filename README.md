# eHMI scenario experiment: motion model and trial timeline

This project models the core of a browser experiment in which a participant
watches a simulated autonomous vehicle with an eHMI (external human-machine
interface) panel, then rates how far they trust its message.

- `scene3d.dfy`: the 3D scene's per-frame motion. Module `Motion` specifies
  one frame as pure functions. It covers the vehicle position `(x, y, z)`
  with its "is animating" flag under the four motion profiles `stop`,
  `evade`, `yield` and `proceed`, and the emergency vehicle that drives in
  during `yield`. Module `SceneAnimation` holds the class `Scene3D`. Its
  methods (`Init`, `Animate`, `UpdateVehiclePosition`, `StartAnimation`)
  update the fields in place and are proved against `Motion`. The module
  also holds the two pure selection rules: the eHMI panel colour and the
  scenario-specific prop.
- `scenarios.dfy`: the display time from the experiment settings
  (`ExperimentConfig`) and the four-entry scenario catalogue (`Scenarios`).
  It also has the display-trial and rating-trial builders, the rating
  trial's `on_finish` callback (on a mutable `DataRecord`), and the loop
  that turns the catalogue into the interleaved trial list.
- `main.dfy`: the experiment timeline (`Experiment`). It is the intro
  screen, the scenario trials and the end screen.

Trials are records (`Trial`): which kind of screen, which plugin, the accepted
keys, the duration, the logged data (a map from field name to `Value`), and,
for rating trials, the scenario id that the `on_finish` callback closes over.
The intro and end screens name their plugin by the string
`'html-keyboard-response'`. The scenario trials pass the plugin object. The
model records both as they are.

Motion follows the code. Every profile moves at the constant 0.15 per frame.
There is no distance-based deceleration. Positions are JavaScript doubles in
the program and `real` here. The exact frame counts proved (the `stop` profile
halts on frame 88, `yield` on frame 128, the emergency vehicle arrives after
50 frames) are those of exact arithmetic, and so is the emergency vehicle's
resting value of exactly z = 0. The clamp-and-compare properties hold either
way, and so does the emergency vehicle's resting band, at or past 0 and short
of one more step.

## Model

| member | source | states |
|---|---|---|
| `Motion.Advance` | js/scene3d.js:298-333 | one position update under a profile; no profile changes `y`, and none turns a halted animation back on |
| `Motion.StopStep` | js/scene3d.js:299-306 | `stop`: short of z = -2 a step adds the speed to z and overshoots the line by less than one increment; at or past it z snaps to exactly -2 and animation stops |
| `Motion.StopPullsBack` | js/scene3d.js:301-305 | `stop` is not monotone in z: from z = -1.95 the step moves the vehicle back to -2 |
| `Motion.EvadeStep` | js/scene3d.js:307-317 | `evade`: every step adds the speed to z and never clears the flag; x is kept for z < -3, gains 0.05 for -3 <= z < -1, loses 0.05 from -1 on |
| `Motion.YieldStep` | js/scene3d.js:318-329 | `yield`: short of -2 only z advances; for -2 <= z < -1.5 z is pinned to -2 and x loses 0.05, and once x passes -2 it is clamped to -2 and animation stops; from -1.5 on nothing changes |
| `Motion.ProceedAndUnknownStep` | js/scene3d.js:330-333 | `proceed` adds the speed to z and nothing else; an unknown profile name changes nothing |
| `Motion.YieldAvoidsHoldZone` | js/scene3d.js:320-322 | with speed 0.15 a yielding vehicle short of z = -1.5 never steps into the zone where nothing happens |
| `Motion.FramesFrozen` | js/scene3d.js:277-279 | once the animation flag is clear, any number of frames leave the vehicle where it is |
| `Motion.FramesKeepHeight` | js/scene3d.js:277-333 | over any run of frames y never changes and a halted vehicle is never restarted |
| `Motion.Approach` | js/scene3d.js:301-302 | for `stop` and `yield`, n frames that all start short of z = -2 add exactly n speed increments to z and change nothing else |
| `Motion.StopSettles` | js/scene3d.js:299-306 | `stop` terminates: a vehicle within n increments of the line is halted exactly on z = -2 after n + 1 frames |
| `Motion.StopFromStart` | js/scene3d.js:20-22 | from the constructor's position with animation started, `stop` approaches for 87 frames and from frame 88 on is halted at (0, 0, -2) |
| `Motion.YieldMoveOver` | js/scene3d.js:322-324 | while the lane x = -2 is not passed, k held frames pin z to -2 and move x by k lateral steps |
| `Motion.YieldSettles` | js/scene3d.js:322-328 | `yield` terminates: a held vehicle whose lateral moves pass x = -2 within m frames ends at (x, z) = (-2, -2) and halted |
| `Motion.YieldFromStart` | js/scene3d.js:318-329 | from the started state `yield` never enters the zone z >= -1.5; it approaches for 87 frames, moves over for 40, and from frame 128 on rests at (-2, 0, -2), halted |
| `Motion.EvadeKeepsGoing` | js/scene3d.js:307-317 | `evade` never halts: after n frames z has gained n speed increments |
| `Motion.ProceedRun` | js/scene3d.js:330-332 | `proceed` drives straight on for ever: after n frames only z has changed, by n increments |
| `Motion.EmergencyIdle` | js/scene3d.js:289-293 | without an emergency vehicle, or outside yield mode, the emergency vehicle never moves |
| `Motion.EmergencyFromStart` | js/scene3d.js:260 | in yield mode the emergency vehicle starts at z = -5, gains 0.1 per frame while z < 0, reaches 0 after 50 frames and stays there (exact arithmetic); from frame 50 on it rests at or past 0 and short of one more step |
| `Motion.EmergencyBelowStep` | js/scene3d.js:289-293 | an emergency vehicle short of one step past z = 0 never gets further, since it only moves while z < 0 |
| `SceneAnimation.EHMIColor` | js/scene3d.js:199-209 | scenario_2 gives orange, scenario_3 red, scenario_4 blue, and every other id (scenario_1 included) the default green, each in both directions |
| `SceneAnimation.ScenarioProp` | js/scene3d.js:65-69 | exactly scenario_2 gets the obstacle and exactly scenario_3 the emergency vehicle |
| `SceneAnimation.CatalogueScenes` | js/scenarios.js:7-44 | for every catalogue entry the panel colour matches the colour the catalogue names; the obstacle goes with the evading scenario and the emergency vehicle with the yielding one |
| `SceneAnimation.Scene3D.constructor` | js/scene3d.js:7-23 | a new scene sits at (0, 0, -15) with speed 0.15, is not animating and has nothing built yet |
| `SceneAnimation.Scene3D.Init` | js/scene3d.js:25-73 | a missing container changes nothing; otherwise the scene is built, the panel colour and prop follow the scenario id, and one frame runs |
| `SceneAnimation.Scene3D.Animate` | js/scene3d.js:265-296 | one frame: the vehicle takes a step only while animating, and the emergency vehicle takes its yield-mode step |
| `SceneAnimation.Scene3D.UpdateVehiclePosition` | js/scene3d.js:298-342 | the new position and flag are exactly one `Advance` of the old ones under the scene's profile and speed |
| `SceneAnimation.Scene3D.StartAnimation` | js/scene3d.js:344-346 | sets the animation flag and touches nothing else |
| `Scenarios.CatalogueFacts` | js/scenarios.js:7-44 | four entries with distinct ids scenario_1 to scenario_4, coloured green, orange, red and blue in that order |
| `Scenarios.ScenarioTrial` | js/scenarios.js:51-78 | a display trial accepts only space, lasts the configured 5000 ms, and logs exactly the scenario's id, title, message and colour, unchanged |
| `Scenarios.RatingTrial` | js/scenarios.js:85-110 | a rating trial accepts only keys 1 to 5, has no time limit, is tagged trust_rating with the scenario's id, and its on_finish closes over that id |
| `Scenarios.ParseInt` | js/scenarios.js:106 | the parse yields a number exactly when the string starts with a decimal digit, NaN otherwise; the number is the value of the leading run of digits |
| `Scenarios.ParseIntDigitsThenRest` | js/scenarios.js:106 | digits followed by anything that does not start with a digit parse to the value of those digits, whatever follows |
| `Scenarios.DecimalValue` | js/scenarios.js:106 | a single digit denotes its own value |
| `Scenarios.DecimalValueAppend` | js/scenarios.js:106 | appending a digit multiplies the value by ten and adds the digit |
| `Scenarios.ParseIntValue` | js/scenarios.js:106 | a string response is parsed as above; a null or missing response gives NaN |
| `Scenarios.RatingKeyValue` | js/scenarios.js:99 | each rating key parses to its place on the scale, 1 to 5 |
| `Scenarios.FinishedRating` | js/scenarios.js:105-108 | after on_finish the record holds rating_value (the parsed response) and scenario_id (the closed-over id); every other field is kept |
| `Scenarios.RatingInScale` | js/scenarios.js:99-108 | when the response is one of the trial's keys, the stored rating is a number in 1..5 and is that key's value |
| `Scenarios.RatingOnFinish` | js/scenarios.js:105-108 | the callback, given the scenario id its closure captures (a rating trial's `onFinish` value), updates the data record in place to `FinishedRating` of its old fields |
| `Scenarios.ScenarioTrialsShape` | js/scenarios.js:116-128 | the list has two trials per scenario; place 2i holds scenario i's display trial and place 2i+1 its rating trial |
| `Scenarios.ScenarioTrialsAlternate` | js/scenarios.js:119-125 | trials alternate display and rating, and each belongs to the scenario at half its index, so catalogue order is kept |
| `Scenarios.ScenarioTrialsPaired` | js/scenarios.js:119-125 | a rating trial directly follows the display trial of the same scenario, and each display trial is directly followed by its rating trial |
| `Scenarios.CreateAllScenarioTrials` | js/scenarios.js:116-128 | the loop over the catalogue returns 8 trials, with each scenario's display trial followed by its own rating trial, in catalogue order |
| `Experiment.ScreenFacts` | js/main.js:7-58 | the intro accepts only space and is tagged intro; the end screen accepts no key, lasts 3000 ms and is tagged end |
| `Experiment.BuildTimeline` | js/main.js:61-65 | the timeline is the intro, exactly the scenario trial list, then the end screen, of length 2 times the catalogue size plus 2 |
| `Experiment.RatingsFollowDisplays` | js/main.js:61-65 | along the whole timeline every rating trial comes right after the display trial of the same scenario, and the other way round |

## Left out

- Three.js scene construction and rendering are not modelled: lights, road, crosswalk, meshes, materials, camera set-up and `lookAt`, `renderer.render`, and copying the position into the mesh. They are calls into the rendering library with no state of their own. `Scene3D.mounted` stands for "scene, camera, renderer and vehicle exist".
- The DOM lookup of the container is a `containerFound` parameter of `Init`, so the container id is not stored.
- `requestAnimationFrame`, `cancelAnimationFrame` and `dispose` are not modelled. Each call of `Animate` is one frame, and runs of frames are the function `Motion.Frames`.
- `Scene3D.Animate` requires that `Init` has built the scene. Without that, the program's `animate` fails on the missing renderer.
- The wheel spin in `animate` is not modelled. It is a cosmetic angle.
- The HTML stimuli, prompts and the intro text are not modelled. They are presentation only.
- Scenarios.ParseInt: only the leading run of decimal digits is modelled. Leading whitespace, a sign and a `0x` prefix are not, because the rating keys never contain them.
- The experiment runner is not modelled. That covers `jsPsych.run`, the plugins, and the recording of `response` into a trial's data record. js/config.js is not part of this model apart from the 5000 ms display time. Its data display, export and timestamping are library, clock and network glue.
- Floating-point rounding of the positions is not modelled (see above).

# Animal explorer: camera transitions, modes and the habitat game

A Dafny model of the logic of a React/three.js "animal explorer". The user
browses a catalogue of animals and sees each one in a themed environment.
They can take a guided tour with scripted camera moves, or compare two
animals side by side. A separate A-Frame mini-game asks the player to drop
animals on their habitat zones for points.

The model covers these parts:

- **Camera controller** (`Scene`, scene.dfy). A class over real 3-vectors.
  It holds the camera position, the orbit controls' target (when the
  controls are mounted), the point the camera last looked at, the target
  pose and the transitioning flag. The focus function, the reset effect and
  the comparison effect re-arm it. Each frame lerps with factor 0.08 and
  snaps exactly once both squared distances are under 0.15² = 0.0225. The
  pure `Rig` snapshot and `TickRig` specify the methods. Properties proved
  about them:
  - each transitioning frame scales the squared distances by 0.92²;
  - after the explicit bound `ArrivalBound` the controller is idle, and a
    transition in flight ends with the camera exactly on the target;
  - a new focus or a reset supersedes the in-flight target and converges
    exactly on the new pose.

  The scene's choice of comparison mode and environment type are pure
  functions in the same module.
- **Coordinator** (`Coordinator`, coordinator.dfy). The top-level
  component's state and handlers. Every handler is a `Command`. `Apply`
  gives its effect on the whole state, and each method of the `App` class is
  proved to do exactly `Apply`. Lemmas over command sequences cover:
  - the reset counter;
  - the focus requests that go out;
  - the cleared pair.
- **Guided tour** (`Guided`, guided.dfy). The step index with
  next/previous/dot jump, the focus request made on every step change, and
  the progress bar.
- **Comparison picker** (`Comparison`, comparison.dfy). The two slots, the
  selector flag and the pair callback, plus the attribute comparison and the
  "Key Differences" list.
- **Environment presets** (`Environment`, environment.dfy). The six-entry
  table, the lookup with its grassland fallback, `#rrggbb` colour parsing
  and the list of types.
- **Habitat game** (`GameState`, gamestate.dfy, and `HabitatZone`,
  habitatzone.dfy). The shared state object, the zone click rule and the
  animal pick-up, with the score bounds over any sequence of picks and drops.

Callbacks into other components do not run here. The model appends each
call to an event log instead:
- `onCameraFocus`, `onSelectAnimals` and `onClose`;
- the camera focus ref;
- the zone's emitted events.

React effects are methods that the caller invokes in sequence.

Event handlers that exist only while their component renders require that
state. This covers next, previous, the step dots and close of the guided
panel, which need `Rendered()`, and every picker handler, which needs
`isActive`. A step dot also exists only for an index of the tour.

Where the code may surprise, the model follows the code:
- "Start Comparison" does not check that the two animals differ
  (`SameAnimalPair` shows a pair of one animal with itself).
- Toggling guided mode flips the flag even for an animal without steps.
- Entering comparison mode sends no focus request until a complete pair is
  chosen.
- A frame without orbit controls still lerps the camera and counts the look
  distance as 0.
- The zone's placed-flag test reads the `placed` object as JavaScript does, so
  a habitat named after an inherited member (`toString`, `constructor`, …)
  always reads as placed and a drop there always costs 10
  (`InheritedZoneAlwaysWrong`).

## Model

| member | source | states |
|---|---|---|
| Geometry.LerpScalesDistance | src/components/Scene.jsx:77-83 | a lerp with factor k scales the squared distance to the target by (1-k)² |
| Scene.LookDistSq | src/components/Scene.jsx:94 | the look distance is the orbit target's squared distance to the look-at, and 0 when the controls are missing |
| Scene.ArmRig | src/components/Scene.jsx:43-52 | re-arming stores both targets, sets transitioning, moves a mounted orbit target onto the look-at at once (no look distance left) and leaves the camera alone |
| Scene.FocusRig | src/components/Scene.jsx:43-52 | focus stores the position, the look-at or the origin when it is omitted, and sets transitioning; a mounted orbit target moves to the look-at immediately |
| Scene.ResetRig | src/components/Scene.jsx:57-67 | reset targets (0,2,8) looking at (0,0,0), re-arms, and puts a mounted orbit target on the origin |
| Scene.ComparisonRig | src/components/Scene.jsx:22-38 | comparison on targets (0,2.5,10), off targets (0,2,8); the look-at is the origin either way and the transition is re-armed |
| Scene.TickRig | src/components/Scene.jsx:69-107 | a frame while not transitioning changes nothing, and no frame changes the targets or whether the controls are mounted; TickStep states the rest |
| Scene.TickStep | src/components/Scene.jsx:73-106 | a transitioning frame goes idle exactly when both lerped distances are under 0.15, and then snaps the camera (and mounted orbit target and facing) exactly onto the targets; otherwise the camera and orbit target are lerped and both squared distances shrink by 0.92² |
| Scene.TicksDescend | src/components/Scene.jsx:73-96 | over n frames the targets stay fixed and, while still transitioning, the summed squared distance has dropped by at least 0.003456·n |
| Scene.ArrivalBound | src/components/Scene.jsx:96 | a frame count whose guaranteed drop exceeds the starting distance |
| Scene.IdleMeansArrived | src/components/Scene.jsx:96-106 | once a started transition is idle, the camera is exactly on the target position and a mounted orbit target exactly on the look-at |
| Scene.Converges | src/components/Scene.jsx:69-107 | from any state the controller is idle after ArrivalBound frames, keeps its targets, and a transition in flight ends exactly on its targets (an idle camera the user has orbited away stays where it is) |
| Scene.FocusConverges | src/components/Scene.jsx:43-107 | after a focus call, even mid-transition, the following frames end exactly on the new pose |
| Scene.ResetConverges | src/components/Scene.jsx:57-107 | after a reset from any state, the frames end exactly on (0,2,8) with a mounted orbit target on the origin |
| Scene.FixedPosesWithinLimits | src/components/Scene.jsx:113-123 | the default pose (0,2,8) and the comparison shot (0,2.5,10), both looking at the origin, lie within the orbit controls' distance 3 to 15 and above their target |
| Scene.CameraController.constructor | src/components/Scene.jsx:14-19 | targets start at (0,2,8)/(0,0,0), not transitioning, the camera at (0,2,8), a mounted orbit target at the origin, nothing looked at yet |
| Scene.CameraController.Focus | src/components/Scene.jsx:43-52 | the exposed focus function does exactly FocusRig |
| Scene.CameraController.Arm | src/components/Scene.jsx:44-52 | the shared re-arming does exactly ArmRig |
| Scene.CameraController.ResetEffect | src/components/Scene.jsx:57-67 | the reset effect does exactly ResetRig |
| Scene.CameraController.ComparisonEffect | src/components/Scene.jsx:22-38 | the comparison effect does exactly ComparisonRig |
| Scene.CameraController.Tick | src/components/Scene.jsx:69-107 | the frame callback, updating camera and controls in place, does exactly TickRig |
| Scene.IsComparisonMode | src/components/Scene.jsx:133 | the scene compares exactly when a pair is passed and both its entries are present (used by ModesExclusive and EnvironmentTypeFor) |
| Scene.EnvironmentTypeFor | src/components/Scene.jsx:152-156 | the environment comes from the first compared animal in comparison mode, else from the selected animal, else none |
| Coordinator.Apply | src/App.jsx:20-86 | one handler's effect on the whole state: only a reset moves the counter (by 1), only a load replaces the catalogue, the focus log grows by at most one request and only from a set ref on a focus or a pair, entering comparison ends the tour and leaving it clears the pair |
| Coordinator.GuidedModeActive | src/App.jsx:118 | the tour is effectively on iff guided is on and comparison is off |
| Coordinator.ScenePair | src/App.jsx:95 | the scene receives the stored pair exactly while comparison is on |
| Coordinator.ModesExclusive | src/App.jsx:95-118 | the scene is in comparison mode iff comparison is on and both entries are present, and never while the tour is effectively on |
| Coordinator.SceneEnvironment | src/components/Scene.jsx:152-156 | with a complete pair shown the environment follows the first animal; with comparison off it follows the selected animal |
| Coordinator.SelectAnimalFrees | src/App.jsx:29-35 | selecting an animal selects it, ends the tour and comparison, and clears the pair |
| Coordinator.ResetTriggerCounts | src/App.jsx:38-40 | over any command sequence the reset counter rises by exactly the number of reset-view commands |
| Coordinator.FocusLogGrows | src/App.jsx:53-80 | focus requests are only appended, and each one is a forwarded request or the comparison shot (0,2.5,10)/(0,0,0) |
| Coordinator.PairClearedPreserved | src/App.jsx:60-86 | if pairs come only from the open picker, comparison off always goes with an empty pair |
| Coordinator.App.constructor | src/App.jsx:11-17 | nothing selected or loaded, counter 0, both modes off, pair [null, null] |
| Coordinator.App.LoadAnimals | src/App.jsx:20-26 | the catalogue is stored and its first animal selected when it is non-empty |
| Coordinator.App.ExposeFocus | src/components/Scene.jsx:41-55 | the focus ref becomes set |
| Coordinator.App.HandleAnimalSelect | src/App.jsx:29-35 | selected := animal, guided and comparison off, pair cleared, nothing else changes |
| Coordinator.App.HandleResetView | src/App.jsx:38-40 | the counter rises by exactly 1 and nothing else changes |
| Coordinator.App.HandleToggleGuidedMode | src/App.jsx:43-45 | the guided flag is negated |
| Coordinator.App.HandleCloseGuidedMode | src/App.jsx:48-50 | the guided flag becomes false |
| Coordinator.App.HandleCameraFocus | src/App.jsx:53-57 | the request is forwarded unchanged exactly when the focus ref is set |
| Coordinator.App.HandleToggleComparisonMode | src/App.jsx:60-69 | comparison flips; turning it on ends the tour and keeps the pair, turning it off clears the pair and keeps guided |
| Coordinator.App.HandleComparisonAnimalsSelect | src/App.jsx:72-80 | the pair is stored; a focus (0,2.5,10)/(0,0,0) goes out iff both animals are present and the ref is set |
| Coordinator.App.HandleCloseComparisonMode | src/App.jsx:83-86 | comparison off and the pair cleared |
| Guided.StepsOf | src/components/GuidedLearningMode.jsx:15 | the tour is empty when the animal or its step list is missing, else the animal's steps |
| Guided.IsFirstStep | src/components/GuidedLearningMode.jsx:46 | the first step is index 0 (it disables previous) |
| Guided.IsLastStep | src/components/GuidedLearningMode.jsx:47 | the last step is index n-1 (it disables next and shows the completion message) |
| Guided.NextIndex | src/components/GuidedLearningMode.jsx:49-53 | next moves one step on unless on the last step, where it stays, and keeps the index inside the tour |
| Guided.PreviousIndex | src/components/GuidedLearningMode.jsx:55-59 | previous moves one step back unless on step 0, where it stays |
| Guided.NextTimesFromStart | src/components/GuidedLearningMode.jsx:46-53 | from step 0, m presses of next reach step min(m, n-1): n-1 presses reach the last step and further presses do nothing |
| Guided.Progress | src/components/GuidedLearningMode.jsx:90 | the bar width ((k+1)/n)·100 percent; ProgressBounds states its range |
| Guided.ProgressBounds | src/components/GuidedLearningMode.jsx:90 | progress lies in (0, 100] and is 100 exactly on the last step, the step that shows the completion message |
| Guided.AfterCommit | src/components/GuidedLearningMode.jsx:18-29 | the activation effect runs only when one of its dependencies changed, and then restarts an active, non-empty tour on step 0 with a focus on it; otherwise the step stays and nothing is sent |
| Guided.ParentRenderAsWritten | src/App.jsx:53-57 | as written, every parent render hands down a new focus handler, so the effect's dependencies change while active, animal and tour length stay |
| Guided.ParentRender | src/App.jsx:53-57 | corrected: a focus handler kept across renders leaves the effect's dependencies unchanged |
| Guided.ParentRenderRestartsTour | src/components/GuidedLearningMode.jsx:18-29 | as written, a parent render during an active tour sends it back to step 0 and refocuses step 0 |
| Guided.ParentRenderKeepsStep | src/components/GuidedLearningMode.jsx:18-29 | with the corrected handler, a parent render keeps the step and sends no focus |
| Guided.GuidedTour.Rendered | src/components/GuidedLearningMode.jsx:41-43 | the panel renders only while active with an animal and a non-empty tour (the handlers' precondition) |
| Guided.GuidedTour.StepEffect | src/components/GuidedLearningMode.jsx:32-39 | the step effect's request: a focus on the current step's position and target while active and on a step of the tour, else none |
| Guided.GuidedTour.constructor | src/components/GuidedLearningMode.jsx:14 | no animal, inactive, the step at 0 and no events |
| Guided.GuidedTour.ReceiveProps | src/components/GuidedLearningMode.jsx:8-13 | new props change neither the step nor the events |
| Guided.GuidedTour.SetStep | src/components/GuidedLearningMode.jsx:32-39 | a change of step while active focuses the camera on that step's position and target |
| Guided.GuidedTour.ActivationEffect | src/components/GuidedLearningMode.jsx:18-29 | when active with a non-empty tour the step returns to 0 and the camera is focused on step 0 (again by the step effect if the step changed); otherwise nothing happens |
| Guided.GuidedTour.HandleNext | src/components/GuidedLearningMode.jsx:49-53 | the step becomes NextIndex, stays inside the tour when it started there, and a focus on the new step is made only when it moved |
| Guided.GuidedTour.HandlePrevious | src/components/GuidedLearningMode.jsx:55-59 | the step becomes PreviousIndex, stays inside the tour when it started there, and a focus on the new step is made only when it moved |
| Guided.GuidedTour.JumpTo | src/components/GuidedLearningMode.jsx:123-131 | a dot sets the step to its index inside the tour and focuses there when that is a change |
| Guided.GuidedTour.HandleClose | src/components/GuidedLearningMode.jsx:61-65 | the close request is passed to the parent |
| Comparison.Compare | src/components/ComparisonMode.jsx:73-92 | `same` is equality of the two values, which are copied through |
| Comparison.GetComparisonData | src/components/ComparisonMode.jsx:69-94 | none unless both slots are set; otherwise habitat, diet, environment and size each compared for equality with both values copied |
| Comparison.Differences | src/components/ComparisonMode.jsx:217-237 | each of the habitat, diet and environment rows is listed exactly when its comparison is not `same`, in that row order |
| Comparison.DifferencesExactly | src/components/ComparisonMode.jsx:214-238 | for two animals, habitat, diet and environment are listed exactly when they differ, in that order, each at most once, size never |
| Comparison.ComparisonPicker.constructor | src/components/ComparisonMode.jsx:14-16 | both slots empty and the selector shown |
| Comparison.ComparisonPicker.SetActive | src/components/ComparisonMode.jsx:19-25 | becoming inactive clears both slots and shows the selector |
| Comparison.ComparisonPicker.HandleAnimal1Select | src/components/ComparisonMode.jsx:29-36 | slot 1 is stored; iff slot 2 holds another id the selector hides and (new1, animal2) is reported |
| Comparison.ComparisonPicker.HandleAnimal2Select | src/components/ComparisonMode.jsx:38-45 | slot 2 is stored; iff slot 1 holds another id the selector hides and (animal1, new2) is reported |
| Comparison.ComparisonPicker.HandleStartComparison | src/components/ComparisonMode.jsx:47-52 | the pair is reported and the selector hidden iff both slots are set, with no distinctness check; the slots and the active flag are unchanged |
| Comparison.ComparisonPicker.HandleReset | src/components/ComparisonMode.jsx:54-59 | both slots cleared, selector shown, (null, null) reported |
| Comparison.ComparisonPicker.HandleClose | src/components/ComparisonMode.jsx:61-66 | the reset, then the close request when a close handler is given; the active flag is unchanged |
| Comparison.ComparisonPicker.Data | src/components/ComparisonMode.jsx:96 | the view's comparison exists iff both slots are set |
| Comparison.SameAnimalPair | src/components/ComparisonMode.jsx:112-152 | picking slot 2, then the same animal in the never-disabled slot-1 list and starting reports that animal paired with itself |
| Environment.PresetOf | src/utils/environmentConfig.js:9-112 | the table has an entry exactly for the six type names |
| Environment.AvailableEnvironmentTypes | src/utils/environmentConfig.js:139-141 | the types are forest, grassland, savannah, snow, farm, desert in that order, each once, and exactly the table's keys |
| Environment.ParseHexColor | src/utils/environmentConfig.js:126-131 | for the `#rrggbb` form the table uses: a string parses exactly when it is `#` and six hex digits, and the channels are bytes |
| Environment.ParseFormatRoundTrip | src/utils/environmentConfig.js:126-131 | parsing the `#rrggbb` spelling of any colour gives the colour back |
| Environment.ToColor | src/utils/environmentConfig.js:126-131 | a valid colour string converts to the colour it names |
| Environment.Convert | src/utils/environmentConfig.js:124-132 | every non-colour field (fog, intensities, positions, environmentPreset) is returned unchanged, and each of the six colour fields is its string converted by ToColor |
| Environment.SelectPreset | src/utils/environmentConfig.js:120-121 | the corrected lookup of the Findings row: a table key selects its own preset; a missing or unknown type, inherited names included, selects grassland |
| Environment.GetEnvironmentConfig | src/utils/environmentConfig.js:119-133 | built on the corrected lookup of the Findings row: a table key yields that preset converted; a missing or unknown type yields grassland converted |
| Environment.RendererDefaultAgrees | src/components/EnvironmentRenderer.jsx:16-19 | the renderer's own 'grassland' default gives the same configuration as the lookup's fallback |
| Environment.PresetsWellFormed | src/utils/environmentConfig.js:9-112 | every preset has 0 < fogNear < fogFar and groundRoughness in [0, 1] |
| Environment.TableColoursValid | src/utils/environmentConfig.js:9-112 | every colour literal of every preset is a `#rrggbb` string, so no conversion falls back |
| Environment.PickAsWritten | src/utils/environmentConfig.js:121 | as written, the name of an inherited object member selects that member, not a preset |
| Environment.InheritedNameEscapesFallback | src/utils/environmentConfig.js:120-121 | 'toString' escapes the grassland fallback as written and selects grassland in the corrected lookup |
| GameState.InitialState | src/state.js:1-6 | time 0, score 0, nothing selected, and placed has exactly farm, forest and ocean, all false |
| GameState.SharedState.constructor | src/state.js:1-6 | the state object starts as the initial state |
| GameState.SharedState.SetSelected | src/state.js:8-10 | selected is replaced; time, score and placed are unchanged |
| GameState.SharedState.AddScore | src/state.js:12-14 | score rises by n; everything else is unchanged |
| GameState.SharedState.MarkPlaced | src/components/habitat-zone.js:24 | the habitat's flag becomes true; nothing else changes |
| HabitatZone.IsCorrect | src/components/habitat-zone.js:23 | a placement: the picked animal's habitat is the zone's and the zone's flag does not read as set, reading inherited names as set |
| HabitatZone.AllPlaced | src/components/habitat-zone.js:40 | every flag of the placed object is set |
| HabitatZone.ClickGame | src/components/habitat-zone.js:19-47 | the click's state change; ClickWithoutSelection and ClickOutcome state it |
| HabitatZone.ClickEffects | src/components/habitat-zone.js:19-47 | the click's emitted events, marker, cleared slot and win text; WinRule states when the win shows |
| HabitatZone.ClickWithoutSelection | src/components/habitat-zone.js:20 | a click with nothing selected changes nothing |
| HabitatZone.ClickOutcome | src/components/habitat-zone.js:23-46 | a matching, unplaced zone gets its flag, +100 and a cleared selection; any other click with a selection costs 10 and keeps flags and selection |
| HabitatZone.WinRule | src/components/habitat-zone.js:40-42 | the win shows iff the click was a correct placement that leaves every flag true |
| HabitatZone.InheritedZoneAlwaysWrong | src/components/habitat-zone.js:23-46 | a zone named after an inherited object member never takes a placement: a drop there costs 10 and shows the wrong-place event |
| HabitatZone.MoveGame | src/components/select-animal.js:11-18 | a move is a pick, which stores the selection as `setSelected` does, or a drop, which is the zone click |
| HabitatZone.ScoreBoundedByPlacements | src/components/habitat-zone.js:23-46 | over any sequence of picks and drops flags are never cleared, and the score gains at most 100 per newly placed habitat |
| HabitatZone.ScoreAtMostPlacements | src/components/habitat-zone.js:23-46 | from the initial state, over any picks and drops, the score never exceeds 100 times the number of placed habitats |
| HabitatZone.WrongDrops | src/components/habitat-zone.js:43-46 | while an animal is held, n drops on a wrong zone cost exactly 10·n and keep the animal in hand |
| HabitatZone.ScoreCanGoNegative | src/components/habitat-zone.js:43-46 | score has no lower bound: for every n, a farm pick followed by n drops on the forest zone leaves -10·n |
| HabitatZone.FullGame | src/components/habitat-zone.js:23-42 | picking and placing one animal of each habitat scores 300, sets all three flags, and the last drop shows the win text |
| HabitatZone.Click | src/components/habitat-zone.js:19-47 | the click listener updates the shared state exactly as ClickGame and produces ClickEffects |
| HabitatZone.PickUp | src/components/select-animal.js:11-18 | the animal's click listener updates the shared state exactly as a pick move |

## Left out

- React scheduling. Effects and handlers are sequential method calls. Dependency tracking is modelled only for the tour's activation effect (`AfterCommit`, see Findings). The step effect's own re-runs are not modelled, so neither is its stale-step request in the same commit as an activation.
- The glue between components. The focus requests the coordinator and the guided tour log are not fed into a `CameraController` automatically. The picker's reports are not fed into the coordinator. They can be composed by calling the methods.
- `camera.lookAt` and `controls.update`. The first is recorded only as the point last looked at (`facing`). The second is taken to leave the camera where the lerp put it. The orbit controls are mounted with a distance of 3 to 15 and a polar angle of at most a right angle, and their update clamps the camera into those limits. So `TicksDescend`, `IdleMeansArrived`, `Converges`, `FocusConverges` and `ResetConverges` hold only for targets and paths inside those limits. A focus pose closer than 3 to its look-at, further than 15, or below it would be clamped every frame and never arrive. `FixedPosesWithinLimits` shows that the scene's own two poses lie inside the limits; the authored tour poses are data and are not checked.
- Floating point. All vectors are `real`. `distanceTo(x) < 0.15` is modelled as squared distance `< 0.0225`, which is equivalent for non-negative distances.
- Environment.ToColor: a colour is kept as its sRGB bytes. The rendering library's division by 255 and its colour-space conversion are not modelled. The parser accepts only the `#rrggbb` form; the library's other colour notations (`#rgb`, CSS names, `rgb()`) are not modelled, as the table does not use them.
- The guided panel's `onCameraFocus` and the picker's `onSelectAnimals` are assumed to be provided, as the top-level component always passes them. A missing `onClose` is modelled for the picker only.
- Presentation. Markup, styles, the comparison view's names, traits and scientific names, and the UI controls' hiding of the guided button for animals without steps and while comparison mode is on are not modelled. `Apply` therefore accepts `ToggleGuided` during comparison; `ModesExclusive` shows the scene still never compares while the tour is effectively on. EnvironmentRenderer.jsx, AnimalModel.jsx, UIControls.jsx, InfoPanel.jsx and drag-rotate.js are rendering, asset loading or mouse-drag handling and are not part of this model.
- select-animal.js. Its state change is modelled as the `Pick` move and `HabitatZone.PickUp`. The inspection-pedestal clone and the pick sound are DOM and audio effects and are not modelled.
- hub.js. Its frame timer increments `time`. The `time` field exists and every modelled operation leaves it unchanged, but nothing advances it.
- main.js and vite.config.js are bootstrapping and build configuration.
- DOM side effects of a zone click. The dropped marker, the cleared inspection slot and the win text appear only as `ZoneEffect` values.
- Environment.PickAsWritten: it models only the plain lookup of the inherited `Object.prototype` names. The contents of the object the source builds in that case are not modelled beyond "a member, not a preset".

## Findings

| source | as written | input that shows it | evidently intended | confidence | as-written member | corrected member |
|---|---|---|---|---|---|---|
| src/utils/environmentConfig.js:120-121 | `environmentPresets[type] \|\| environmentPresets.grassland` also finds names the object inherits, which are truthy | environment type `'toString'` (or `'constructor'`, `'valueOf'`, …) | the comment says an invalid type returns the grassland default, so only the table's own keys should count | medium, not executed | Environment.PickAsWritten | Environment.SelectPreset |
| src/App.jsx:53-57 | `handleCameraFocus` is a new closure on every render of the top-level component, and the tour's activation effect depends on it (src/components/GuidedLearningMode.jsx:29), so the effect runs again after any such render | press Reset View on step 3 of an active tour: the counter update re-renders the parent, the effect runs, and the tour jumps to step 0 and refocuses there | the effect's comment says it resets only when the animal changes or the mode is activated, so the handler should keep its identity (for example with `useCallback`, as it reads only a ref) | medium, not executed | Guided.ParentRenderRestartsTour | Guided.ParentRenderKeepsStep |

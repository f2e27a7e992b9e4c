/**
 * The top-level explorer: which animal is selected, the reset counter, the
 * guided and comparison flags and the comparison pair, and the focus
 * commands it forwards to the camera through the focus ref.
 *
 * Each handler is a `Command`; `Apply` says what one command does to the
 * whole state and the class's methods are the handlers, each proved to do
 * exactly `Apply`.
 */
module Coordinator {
  import opened Options
  import opened Geometry
  import opened Animals
  import Scene

  const NoPair: Scene.ComparisonPair := Scene.ComparisonPair(None, None)

  datatype Explorer = Explorer(
    animals: seq<Animal>,
    selected: Option<Animal>,
    resetTrigger: nat,
    guided: bool,
    comparison: bool,
    pair: Scene.ComparisonPair,
    focusReady: bool,
    focusLog: seq<FocusRequest>)

  datatype Command =
    | Load(data: seq<Animal>)
    | FocusExposed
    | SelectAnimal(animal: Animal)
    | ResetView
    | ToggleGuided
    | CloseGuided
    | CameraFocus(position: Vec3, target: Option<Vec3>)
    | ToggleComparison
    | SelectPair(first: Option<Animal>, second: Option<Animal>)
    | CloseComparison

  /** The state before the first effect: nothing loaded, every mode off. */
  const Initial: Explorer := Explorer([], None, 0, false, false, NoPair, false, [])

  /** A focus request goes out only when the camera has exposed its focus function. */
  function Forward(s: Explorer, request: FocusRequest): seq<FocusRequest> {
    if s.focusReady then s.focusLog + [request] else s.focusLog
  }

  /**
   * One handler's effect on the whole state. Only a reset moves the counter,
   * only a load replaces the catalogue, the focus log only grows (by at most
   * one request), entering comparison ends the tour and leaving it clears
   * the pair.
   */
  function Apply(s: Explorer, c: Command): (r: Explorer)
    ensures r.resetTrigger == s.resetTrigger + (if c.ResetView? then 1 else 0)
    ensures r.animals == (if c.Load? then c.data else s.animals)
    ensures |s.focusLog| <= |r.focusLog| <= |s.focusLog| + 1 && r.focusLog[..|s.focusLog|] == s.focusLog
    ensures |r.focusLog| > |s.focusLog| ==> s.focusReady && (c.CameraFocus? || c.SelectPair?)
    ensures r.comparison && !s.comparison ==> !r.guided
    ensures !r.comparison && s.comparison ==> r.pair == NoPair
  {
    match c
    case Load(data) =>
      s.(animals := data, selected := if |data| > 0 then Some(data[0]) else s.selected)
    case FocusExposed => s.(focusReady := true)
    case SelectAnimal(a) =>
      s.(selected := Some(a), guided := false, comparison := false, pair := NoPair)
    case ResetView => s.(resetTrigger := s.resetTrigger + 1)
    case ToggleGuided => s.(guided := !s.guided)
    case CloseGuided => s.(guided := false)
    case CameraFocus(position, target) => s.(focusLog := Forward(s, FocusRequest(position, target)))
    case ToggleComparison =>
      if !s.comparison then s.(comparison := true, guided := false)
      else s.(comparison := false, pair := NoPair)
    case SelectPair(a1, a2) =>
      var s' := s.(pair := Scene.ComparisonPair(a1, a2));
      if a1.Some? && a2.Some? then
        s'.(focusLog := Forward(s, FocusRequest(Scene.ComparisonPosition, Some(Origin))))
      else s'
    case CloseComparison => s.(comparison := false, pair := NoPair)
  }

  function Run(s: Explorer, cs: seq<Command>): Explorer
    decreases |cs|
  {
    if cs == [] then s else Run(Apply(s, cs[0]), cs[1..])
  }

  /** Guided mode is effectively on only while comparison mode is off. */
  function GuidedModeActive(s: Explorer): (on: bool)
    ensures on ==> !s.comparison
    ensures on <==> s.guided && !s.comparison
  {
    s.guided && !s.comparison
  }

  /** The pair the scene receives: the stored pair while comparison is on, none otherwise. */
  function ScenePair(s: Explorer): (p: Option<Scene.ComparisonPair>)
    ensures p.Some? <==> s.comparison
    ensures p.Some? ==> p.value == s.pair
  {
    if s.comparison then Some(s.pair) else None
  }

  /** Mode exclusivity: the scene never shows a comparison while the guided tour is effectively on. */
  lemma ModesExclusive(s: Explorer)
    ensures !(GuidedModeActive(s) && Scene.IsComparisonMode(ScenePair(s)))
    ensures Scene.IsComparisonMode(ScenePair(s)) <==>
              s.comparison && s.pair.first.Some? && s.pair.second.Some?
  {
  }

  /** The renderer follows the first compared animal only while a complete pair is shown. */
  lemma SceneEnvironment(s: Explorer)
    ensures s.comparison && s.pair.first.Some? && s.pair.second.Some? ==>
              Scene.EnvironmentTypeFor(s.selected, ScenePair(s)) == s.pair.first.value.environmentType
    ensures !s.comparison && s.selected.Some? ==>
              Scene.EnvironmentTypeFor(s.selected, ScenePair(s)) == s.selected.value.environmentType
  {
  }

  /** Selecting an animal always lands in free exploration with no pair. */
  lemma SelectAnimalFrees(s: Explorer, a: Animal)
    ensures var s' := Apply(s, SelectAnimal(a));
      s'.selected == Some(a) && !GuidedModeActive(s') && ScenePair(s') == None && s'.pair == NoPair
  {
  }

  function ResetCount(cs: seq<Command>): nat
    decreases |cs|
  {
    if cs == [] then 0 else (if cs[0] == ResetView then 1 else 0) + ResetCount(cs[1..])
  }

  /** The reset counter counts exactly the reset-view commands. */
  lemma {:induction false} ResetTriggerCounts(s: Explorer, cs: seq<Command>)
    ensures Run(s, cs).resetTrigger == s.resetTrigger + ResetCount(cs)
    decreases |cs|
  {
    if cs != [] {
      ResetTriggerCounts(Apply(s, cs[0]), cs[1..]);
    }
  }

  /** Whether `request` is one of the requests the explorer may send. */
  predicate Legitimate(request: FocusRequest, cs: seq<Command>) {
    request == FocusRequest(Scene.ComparisonPosition, Some(Origin))
    || exists i :: 0 <= i < |cs| && cs[i].CameraFocus? && request == FocusRequest(cs[i].position, cs[i].target)
  }

  /**
   * Every focus request the explorer ever sends is either a forwarded request
   * or the comparison wide shot; earlier requests are never changed.
   */
  lemma {:induction false} FocusLogGrows(s: Explorer, cs: seq<Command>)
    ensures |s.focusLog| <= |Run(s, cs).focusLog|
    ensures Run(s, cs).focusLog[..|s.focusLog|] == s.focusLog
    ensures forall k :: |s.focusLog| <= k < |Run(s, cs).focusLog| ==> Legitimate(Run(s, cs).focusLog[k], cs)
    decreases |cs|
  {
    if cs != [] {
      var s1 := Apply(s, cs[0]);
      FocusLogGrows(s1, cs[1..]);
      var r := Run(s, cs);
      assert r == Run(s1, cs[1..]);
      assert s1.focusLog[..|s.focusLog|] == s.focusLog;
      forall k | |s.focusLog| <= k < |r.focusLog|
        ensures Legitimate(r.focusLog[k], cs)
      {
        if k < |s1.focusLog| {
          assert r.focusLog[k] == s1.focusLog[k];
          if cs[0].CameraFocus? {
            assert s1.focusLog[k] == FocusRequest(cs[0].position, cs[0].target);
          }
        } else {
          assert Legitimate(r.focusLog[k], cs[1..]);
          if r.focusLog[k] != FocusRequest(Scene.ComparisonPosition, Some(Origin)) {
            var i :| 0 <= i < |cs[1..]| && cs[1..][i].CameraFocus?
                     && r.focusLog[k] == FocusRequest(cs[1..][i].position, cs[1..][i].target);
            assert cs[i + 1] == cs[1..][i];
          }
        }
      }
    }
  }

  /** Comparison mode being off goes with an empty pair, whatever commands follow. */
  predicate PairCleared(s: Explorer) {
    !s.comparison ==> s.pair == NoPair
  }

  /** Pair selections come only from the open comparison picker. */
  predicate FromOpenPicker(s: Explorer, cs: seq<Command>)
    decreases |cs|
  {
    cs != [] ==> (cs[0].SelectPair? ==> s.comparison) && FromOpenPicker(Apply(s, cs[0]), cs[1..])
  }

  lemma {:induction false} PairClearedPreserved(s: Explorer, cs: seq<Command>)
    requires PairCleared(s) && FromOpenPicker(s, cs)
    ensures PairCleared(Run(s, cs))
    decreases |cs|
  {
    if cs != [] {
      PairClearedPreserved(Apply(s, cs[0]), cs[1..]);
    }
  }

  /** The explorer component with its state hooks and the focus ref. */
  class App {
    var animals: seq<Animal>
    var selected: Option<Animal>
    var resetTrigger: nat
    var guided: bool
    var comparison: bool
    var pair: Scene.ComparisonPair
    var focusReady: bool
    var focusLog: seq<FocusRequest>

    function State(): Explorer
      reads this
    {
      Explorer(animals, selected, resetTrigger, guided, comparison, pair, focusReady, focusLog)
    }

    constructor ()
      ensures State() == Initial
    {
      animals, selected, resetTrigger := [], None, 0;
      guided, comparison, pair := false, false, NoPair;
      focusReady, focusLog := false, [];
    }

    /** The mount effect: store the catalogue and select its first animal, if any. */
    method LoadAnimals(data: seq<Animal>)
      modifies this
      ensures State() == Apply(old(State()), Load(data))
      ensures |data| > 0 ==> selected == Some(data[0])
    {
      animals := data;
      if |data| > 0 {
        selected := Some(data[0]);
      }
    }

    /** The camera controller storing its focus function in the ref. */
    method ExposeFocus()
      modifies this
      ensures State() == Apply(old(State()), FocusExposed)
    {
      focusReady := true;
    }

    method HandleAnimalSelect(animal: Animal)
      modifies this
      ensures State() == Apply(old(State()), SelectAnimal(animal))
      ensures selected == Some(animal) && !guided && !comparison && pair == NoPair
    {
      selected := Some(animal);
      guided := false;
      comparison := false;
      pair := NoPair;
    }

    method HandleResetView()
      modifies this
      ensures State() == Apply(old(State()), ResetView)
      ensures resetTrigger == old(resetTrigger) + 1
      ensures State().(resetTrigger := old(resetTrigger)) == old(State())
    {
      resetTrigger := resetTrigger + 1;
    }

    method HandleToggleGuidedMode()
      modifies this
      ensures State() == Apply(old(State()), ToggleGuided)
      ensures guided == !old(guided)
    {
      guided := !guided;
    }

    method HandleCloseGuidedMode()
      modifies this
      ensures State() == Apply(old(State()), CloseGuided)
      ensures !guided
    {
      guided := false;
    }

    method HandleCameraFocus(position: Vec3, target: Option<Vec3>)
      modifies this
      ensures State() == Apply(old(State()), CameraFocus(position, target))
      ensures focusLog == if focusReady then old(focusLog) + [FocusRequest(position, target)] else old(focusLog)
    {
      if focusReady {
        focusLog := focusLog + [FocusRequest(position, target)];
      }
    }

    method HandleToggleComparisonMode()
      modifies this
      ensures State() == Apply(old(State()), ToggleComparison)
      ensures comparison == !old(comparison)
      ensures !old(comparison) ==> !guided && pair == old(pair)
      ensures old(comparison) ==> pair == NoPair && guided == old(guided)
    {
      var wasActive := comparison;
      comparison := !comparison;
      if !wasActive {
        guided := false;
      } else {
        pair := NoPair;
      }
    }

    method HandleComparisonAnimalsSelect(first: Option<Animal>, second: Option<Animal>)
      modifies this
      ensures State() == Apply(old(State()), SelectPair(first, second))
      ensures pair == Scene.ComparisonPair(first, second)
      ensures |focusLog| > |old(focusLog)| <==> first.Some? && second.Some? && focusReady
      ensures |focusLog| > |old(focusLog)| ==>
                focusLog == old(focusLog) + [FocusRequest(Vec3(0.0, 2.5, 10.0), Some(Vec3(0.0, 0.0, 0.0)))]
    {
      pair := Scene.ComparisonPair(first, second);
      if first.Some? && second.Some? {
        if focusReady {
          focusLog := focusLog + [FocusRequest(Scene.ComparisonPosition, Some(Origin))];
        }
      }
    }

    method HandleCloseComparisonMode()
      modifies this
      ensures State() == Apply(old(State()), CloseComparison)
      ensures !comparison && pair == NoPair
    {
      comparison := false;
      pair := NoPair;
    }
  }
}

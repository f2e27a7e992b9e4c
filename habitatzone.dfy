/**
 * The click rule of a habitat zone: a picked-up animal dropped on the zone of
 * its own habitat, not yet placed there, scores +100, marks the habitat and
 * clears the pick; any other drop costs 10 points and keeps the pick. The
 * win text shows right after a placement that leaves every flag set.
 */
module HabitatZone {
  import opened Options
  import opened GameState
  import opened JsObject

  /** The visible side effects of a click: events emitted, markers dropped, the win text. */
  datatype ZoneEffect = CorrectPlace | PlacedMarker(model: string) | InspectSlotCleared | WrongPlace | WinShown

  /**
   * A click that places the picked animal: its habitat is the zone's and the
   * zone's flag does not read as set. The flag is read as a property of the
   * `placed` object, so a name inherited from `Object.prototype` reads as set.
   */
  predicate IsCorrect(g: Game, zone: string) {
    g.selected.Some? && g.selected.value.habitat == zone && !FlagIsSet(g.placed, zone)
  }

  /** Every flag set (the source's `Object.values(placed).every(Boolean)`). */
  predicate AllPlaced(placed: map<string, bool>) {
    forall h :: h in placed ==> placed[h]
  }

  function ClickGame(g: Game, zone: string): Game {
    if g.selected.None? then g
    else if IsCorrect(g, zone) then g.(placed := g.placed[zone := true], score := g.score + 100, selected := None)
    else g.(score := g.score - 10)
  }

  function ClickEffects(g: Game, zone: string): seq<ZoneEffect> {
    if g.selected.None? then []
    else if IsCorrect(g, zone) then
      [CorrectPlace, PlacedMarker(g.selected.value.modelSelector), InspectSlotCleared]
      + (if AllPlaced(g.placed[zone := true]) then [WinShown] else [])
    else [WrongPlace]
  }

  /** A click with nothing picked up changes nothing and shows nothing. */
  lemma ClickWithoutSelection(g: Game, zone: string)
    requires g.selected.None?
    ensures ClickGame(g, zone) == g && ClickEffects(g, zone) == []
  {
  }

  /**
   * A correct drop sets that habitat's flag, adds exactly 100 and clears the
   * pick; any other drop with a pick (a mismatch or an already placed zone)
   * takes exactly 10 and keeps flags and pick. Time never changes.
   */
  lemma ClickOutcome(g: Game, zone: string)
    requires g.selected.Some?
    ensures var g' := ClickGame(g, zone);
      && g'.time == g.time
      && (IsCorrect(g, zone) ==>
            g'.placed == g.placed[zone := true] && g'.score == g.score + 100 && g'.selected.None?
            && PlacedSet(g'.placed) == PlacedSet(g.placed) + {zone} && zone !in PlacedSet(g.placed))
      && (!IsCorrect(g, zone) ==>
            g'.placed == g.placed && g'.score == g.score - 10 && g'.selected == g.selected)
  {
  }

  /** The win text appears only right after a correct placement, and exactly when it completes every flag. */
  lemma WinRule(g: Game, zone: string)
    ensures WinShown in ClickEffects(g, zone) <==> IsCorrect(g, zone) && AllPlaced(ClickGame(g, zone).placed)
  {
  }

  /** A zone named after an inherited member never takes a placement: every drop there costs 10. */
  lemma InheritedZoneAlwaysWrong(g: Game, zone: string)
    requires g.selected.Some? && zone in InheritedNames && zone !in g.placed
    ensures ClickGame(g, zone) == g.(score := g.score - 10)
    ensures ClickEffects(g, zone) == [WrongPlace]
  {
  }

  /** One player action: picking up an animal, or clicking a zone. */
  datatype Move = Pick(sel: Selection) | Drop(zone: string)

  /** A pick stores the selection, as the animal's click listener does through `setSelected`. */
  function MoveGame(g: Game, m: Move): Game {
    match m
    case Pick(sel) => g.(selected := Some(sel))
    case Drop(zone) => ClickGame(g, zone)
  }

  function Play(g: Game, moves: seq<Move>): Game
    decreases |moves|
  {
    if moves == [] then g else Play(MoveGame(g, moves[0]), moves[1..])
  }

  /** Playing a move and then the rest. */
  lemma PlayOne(g: Game, m: Move, rest: seq<Move>)
    ensures Play(g, [m] + rest) == Play(MoveGame(g, m), rest)
  {
    assert ([m] + rest)[1..] == rest;
  }

  /**
   * Over any sequence of picks and drops no flag is ever cleared, and the
   * score never rises by more than 100 per habitat newly placed: each
   * habitat pays +100 at most once.
   */
  lemma {:induction false} ScoreBoundedByPlacements(g: Game, moves: seq<Move>)
    ensures PlacedSet(g.placed) <= PlacedSet(Play(g, moves).placed)
    ensures Play(g, moves).score - 100 * |PlacedSet(Play(g, moves).placed)|
              <= g.score - 100 * |PlacedSet(g.placed)|
    decreases |moves|
  {
    if moves != [] {
      var g1 := MoveGame(g, moves[0]);
      if moves[0].Drop? && g.selected.Some? {
        ClickOutcome(g, moves[0].zone);
      }
      ScoreBoundedByPlacements(g1, moves[1..]);
    }
  }

  /** From the start of a game the score is at most 100 per placed habitat. */
  lemma ScoreAtMostPlacements(moves: seq<Move>)
    ensures Play(Initial, moves).score <= 100 * |PlacedSet(Play(Initial, moves).placed)|
  {
    InitialState();
    ScoreBoundedByPlacements(Initial, moves);
  }

  /**
   * While an animal is held, every drop on a wrong zone costs 10 and keeps
   * the animal in hand, so n such drops cost exactly 10·n.
   */
  lemma {:induction false} WrongDrops(g: Game, zone: string, n: nat)
    requires g.selected.Some? && !IsCorrect(g, zone)
    ensures Play(g, seq(n, _ => Drop(zone))).score == g.score - 10 * n
    ensures Play(g, seq(n, _ => Drop(zone))).selected == g.selected
    decreases n
  {
    if n > 0 {
      assert seq(n, _ => Drop(zone)) == [Drop(zone)] + seq(n - 1, _ => Drop(zone));
      PlayOne(g, Drop(zone), seq(n - 1, _ => Drop(zone)));
      var g1 := ClickGame(g, zone);
      assert g1 == g.(score := g.score - 10);
      WrongDrops(g1, zone, n - 1);
    }
  }

  /**
   * Nothing bounds the score from below: after picking a farm animal, n drops
   * on the forest zone leave the score at -10·n, for every n.
   */
  lemma ScoreCanGoNegative(sel: Selection, n: nat)
    requires sel.habitat == "farm"
    ensures Play(Initial, [Pick(sel)] + seq(n, _ => Drop("forest"))).score == -10 * n
  {
    var g0 := Initial.(selected := Some(sel));
    assert !IsCorrect(g0, "forest");
    PlayOne(Initial, Pick(sel), seq(n, _ => Drop("forest")));
    WrongDrops(g0, "forest", n);
  }

  /**
   * A whole game: picking and placing one animal of each habitat scores 300,
   * sets all three flags, and the last drop shows the win text.
   */
  lemma FullGame(farm: Selection, forest: Selection, ocean: Selection)
    requires farm.habitat == "farm" && forest.habitat == "forest" && ocean.habitat == "ocean"
    ensures var g := Play(Initial, [Pick(farm), Drop("farm"), Pick(forest), Drop("forest"), Pick(ocean)]);
      && WinShown in ClickEffects(g, "ocean")
      && ClickGame(g, "ocean").score == 300
      && PlacedSet(ClickGame(g, "ocean").placed) == {"farm", "forest", "ocean"}
  {
    var moves := [Pick(farm), Drop("farm"), Pick(forest), Drop("forest"), Pick(ocean)];
    var g1 := Initial.(selected := Some(farm));
    var g2 := g1.(placed := g1.placed["farm" := true], score := 100, selected := None);
    var g3 := g2.(selected := Some(forest));
    var g4 := g3.(placed := g3.placed["forest" := true], score := 200, selected := None);
    var g5 := g4.(selected := Some(ocean));
    assert ClickGame(g1, "farm") == g2;
    assert ClickGame(g3, "forest") == g4;
    PlayOne(Initial, Pick(farm), [Drop("farm"), Pick(forest), Drop("forest"), Pick(ocean)]);
    PlayOne(g1, Drop("farm"), [Pick(forest), Drop("forest"), Pick(ocean)]);
    PlayOne(g2, Pick(forest), [Drop("forest"), Pick(ocean)]);
    PlayOne(g3, Drop("forest"), [Pick(ocean)]);
    PlayOne(g4, Pick(ocean), []);
    assert Play(Initial, moves) == g5;
    assert g5.placed == map["farm" := true, "forest" := true, "ocean" := false];
    assert IsCorrect(g5, "ocean");
    assert g5.placed["ocean" := true] == map["farm" := true, "forest" := true, "ocean" := true];
  }

  /** The zone's click listener, writing the shared state as the source does. */
  method Click(state: SharedState, zoneHabitat: string) returns (effects: seq<ZoneEffect>)
    modifies state
    ensures state.Snapshot() == ClickGame(old(state.Snapshot()), zoneHabitat)
    ensures effects == ClickEffects(old(state.Snapshot()), zoneHabitat)
  {
    if state.selected.None? {
      return [];
    }
    var sel := state.selected.value;
    if sel.habitat == zoneHabitat && !FlagIsSet(state.placed, zoneHabitat) {
      state.MarkPlaced(zoneHabitat);
      state.AddScore(100);
      effects := [CorrectPlace, PlacedMarker(sel.modelSelector), InspectSlotCleared];
      state.SetSelected(None);
      if AllPlaced(state.placed) {
        effects := effects + [WinShown];
      }
    } else {
      state.AddScore(-10);
      effects := [WrongPlace];
    }
  }

  /** The animal's click listener: it stores the selection and leaves the rest of the state alone. */
  method PickUp(state: SharedState, sel: Selection)
    modifies state
    ensures state.Snapshot() == MoveGame(old(state.Snapshot()), Pick(sel))
  {
    state.SetSelected(Some(sel));
  }
}

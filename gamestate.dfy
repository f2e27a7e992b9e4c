/**
 * The shared state of the habitat-matching game: elapsed time, score, the
 * animal currently picked up, and one placed flag per habitat.
 */
module GameState {
  import opened Options

  /** What picking an animal stores: its id, label, habitat and model (the label is `name`, as `label` is a reserved word in Dafny). */
  datatype Selection = Selection(id: string, name: string, habitat: string, modelSelector: string)

  datatype Game = Game(time: real, score: int, selected: Option<Selection>, placed: map<string, bool>)

  /** The state at load: no time, no score, nothing picked, no habitat placed. */
  const Initial: Game := Game(0.0, 0, None, map["farm" := false, "forest" := false, "ocean" := false])

  /** The habitats whose flag is set. */
  function PlacedSet(placed: map<string, bool>): (s: set<string>)
    ensures forall h :: h in s <==> h in placed && placed[h]
  {
    set h | h in placed && placed[h]
  }

  /** The initial state has exactly the three habitats, none of them placed. */
  lemma InitialState()
    ensures Initial.placed.Keys == {"farm", "forest", "ocean"}
    ensures PlacedSet(Initial.placed) == {}
    ensures Initial.score == 0 && Initial.selected.None? && Initial.time == 0.0
  {
  }

  /** The module-level state object, updated in place. */
  class SharedState {
    var time: real
    var score: int
    var selected: Option<Selection>
    var placed: map<string, bool>

    function Snapshot(): Game
      reads this
    {
      Game(time, score, selected, placed)
    }

    constructor ()
      ensures Snapshot() == Initial
    {
      time, score, selected := 0.0, 0, None;
      placed := map["farm" := false, "forest" := false, "ocean" := false];
    }

    method SetSelected(sel: Option<Selection>)
      modifies this
      ensures selected == sel
      ensures time == old(time) && score == old(score) && placed == old(placed)
    {
      selected := sel;
    }

    method AddScore(n: int)
      modifies this
      ensures score == old(score) + n
      ensures time == old(time) && selected == old(selected) && placed == old(placed)
    {
      score := score + n;
    }

    /** The click rule's write of one placed flag (the source assigns the map entry directly). */
    method MarkPlaced(habitat: string)
      modifies this
      ensures placed == old(placed)[habitat := true]
      ensures time == old(time) && score == old(score) && selected == old(selected)
    {
      placed := placed[habitat := true];
    }
  }
}

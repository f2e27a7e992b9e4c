/**
 * The comparison picker: two optional slots and a selector flag. Picks and
 * buttons report a chosen pair to the parent; `ComparisonData` and
 * `Differences` compute what the comparison view shows.
 */
module Comparison {
  import opened Options
  import opened Animals

  /** One compared attribute: whether the two values agree, and the two values. */
  datatype FieldComparison<T> = FieldComparison(same: bool, value1: T, value2: T)

  datatype ComparisonData = ComparisonData(
    habitat: FieldComparison<string>,
    diet: FieldComparison<string>,
    environment: FieldComparison<Option<string>>,
    size: FieldComparison<string>)

  function Compare<T(==)>(v1: T, v2: T): (f: FieldComparison<T>)
    ensures f.value1 == v1 && f.value2 == v2
    ensures f.same <==> v1 == v2
  {
    FieldComparison(v1 == v2, v1, v2)
  }

  /** The comparison of the two slots; none unless both are filled. */
  function GetComparisonData(animal1: Option<Animal>, animal2: Option<Animal>): (d: Option<ComparisonData>)
    ensures d.Some? <==> animal1.Some? && animal2.Some?
    ensures d.Some? ==>
      var a, b := animal1.value, animal2.value;
      && (d.value.habitat.same <==> a.habitat == b.habitat)
      && (d.value.diet.same <==> a.diet == b.diet)
      && (d.value.environment.same <==> a.environmentType == b.environmentType)
      && (d.value.size.same <==> a.size == b.size)
      && d.value.habitat.value1 == a.habitat && d.value.habitat.value2 == b.habitat
      && d.value.diet.value1 == a.diet && d.value.diet.value2 == b.diet
      && d.value.environment.value1 == a.environmentType && d.value.environment.value2 == b.environmentType
      && d.value.size.value1 == a.size && d.value.size.value2 == b.size
  {
    if animal1.None? || animal2.None? then None
    else
      var a, b := animal1.value, animal2.value;
      Some(ComparisonData(
        Compare(a.habitat, b.habitat),
        Compare(a.diet, b.diet),
        Compare(a.environmentType, b.environmentType),
        Compare(a.size, b.size)))
  }

  /** The rows of the "Key Differences" list. */
  datatype Difference = HabitatDiffers | DietDiffers | EnvironmentDiffers

  /** The position of each row in the list: habitat, then diet, then environment. */
  function Rank(d: Difference): nat {
    match d
    case HabitatDiffers => 0
    case DietDiffers => 1
    case EnvironmentDiffers => 2
  }

  /** Each row is listed exactly when its attribute differs, in the fixed row order. */
  function Differences(c: ComparisonData): (ds: seq<Difference>)
    ensures HabitatDiffers in ds <==> !c.habitat.same
    ensures DietDiffers in ds <==> !c.diet.same
    ensures EnvironmentDiffers in ds <==> !c.environment.same
    ensures forall i, j :: 0 <= i < j < |ds| ==> Rank(ds[i]) < Rank(ds[j])
  {
    (if !c.habitat.same then [HabitatDiffers] else [])
    + (if !c.diet.same then [DietDiffers] else [])
    + (if !c.environment.same then [EnvironmentDiffers] else [])
  }

  /**
   * For two filled slots, the list shows each of habitat, diet and
   * environment exactly when the two animals differ in it, in that order
   * and each at most once; size is never listed.
   */
  lemma DifferencesExactly(a: Animal, b: Animal)
    ensures var ds := Differences(GetComparisonData(Some(a), Some(b)).value);
      && (HabitatDiffers in ds <==> a.habitat != b.habitat)
      && (DietDiffers in ds <==> a.diet != b.diet)
      && (EnvironmentDiffers in ds <==> a.environmentType != b.environmentType)
      && (forall i, j :: 0 <= i < j < |ds| ==> Rank(ds[i]) < Rank(ds[j]) && ds[i] != ds[j])
      && |ds| <= 3
      && (ds == [] <==> a.habitat == b.habitat && a.diet == b.diet && a.environmentType == b.environmentType)
  {
  }

  datatype PickerEvent = SelectAnimals(first: Option<Animal>, second: Option<Animal>) | CloseRequested

  /** Whether the two picks name different animals. */
  predicate DistinctPick(first: Animal, other: Option<Animal>) {
    other.Some? && first.id != other.value.id
  }

  class ComparisonPicker {
    var isActive: bool
    var animal1: Option<Animal>
    var animal2: Option<Animal>
    var showSelector: bool
    const hasOnClose: bool
    var events: seq<PickerEvent>

    constructor (active: bool, onCloseProvided: bool)
      ensures isActive == active && hasOnClose == onCloseProvided
      ensures animal1 == None && animal2 == None && showSelector && events == []
    {
      isActive, hasOnClose := active, onCloseProvided;
      animal1, animal2, showSelector, events := None, None, true, [];
    }

    /** A new `isActive` prop; becoming (or staying) inactive clears the slots and shows the selector. */
    method SetActive(active: bool)
      modifies this
      ensures isActive == active && events == old(events)
      ensures !active ==> animal1 == None && animal2 == None && showSelector
      ensures active ==> animal1 == old(animal1) && animal2 == old(animal2) && showSelector == old(showSelector)
    {
      isActive := active;
      if !active {
        animal1, animal2, showSelector := None, None, true;
      }
    }

    /** A pick in the first list; a pair goes out only when the second slot holds another animal. */
    method HandleAnimal1Select(animal: Animal)
      requires isActive
      modifies this
      ensures animal1 == Some(animal) && animal2 == old(animal2) && isActive
      ensures DistinctPick(animal, old(animal2)) ==>
                !showSelector && events == old(events) + [SelectAnimals(Some(animal), old(animal2))]
      ensures !DistinctPick(animal, old(animal2)) ==>
                showSelector == old(showSelector) && events == old(events)
    {
      animal1 := Some(animal);
      if animal2.Some? && animal.id != animal2.value.id {
        showSelector := false;
        events := events + [SelectAnimals(Some(animal), animal2)];
      }
    }

    /** A pick in the second list; the symmetric rule. */
    method HandleAnimal2Select(animal: Animal)
      requires isActive
      modifies this
      ensures animal2 == Some(animal) && animal1 == old(animal1) && isActive
      ensures DistinctPick(animal, old(animal1)) ==>
                !showSelector && events == old(events) + [SelectAnimals(old(animal1), Some(animal))]
      ensures !DistinctPick(animal, old(animal1)) ==>
                showSelector == old(showSelector) && events == old(events)
    {
      animal2 := Some(animal);
      if animal1.Some? && animal.id != animal1.value.id {
        showSelector := false;
        events := events + [SelectAnimals(animal1, Some(animal))];
      }
    }

    /** "Start Comparison": reports the pair when both slots are filled, without checking distinctness. */
    method HandleStartComparison()
      requires isActive
      modifies this
      ensures animal1 == old(animal1) && animal2 == old(animal2) && isActive == old(isActive)
      ensures animal1.Some? && animal2.Some? ==>
                !showSelector && events == old(events) + [SelectAnimals(animal1, animal2)]
      ensures !(animal1.Some? && animal2.Some?) ==> showSelector == old(showSelector) && events == old(events)
    {
      if animal1.Some? && animal2.Some? {
        showSelector := false;
        events := events + [SelectAnimals(animal1, animal2)];
      }
    }

    /** "Change Animals": empty slots, selector shown, and an empty pair reported. */
    method HandleReset()
      requires isActive
      modifies this
      ensures animal1 == None && animal2 == None && showSelector && isActive
      ensures events == old(events) + [SelectAnimals(None, None)]
    {
      animal1, animal2, showSelector := None, None, true;
      events := events + [SelectAnimals(None, None)];
    }

    /** Close: the reset, then the parent's close handler when one is given. */
    method HandleClose()
      requires isActive
      modifies this
      ensures animal1 == None && animal2 == None && showSelector && isActive == old(isActive)
      ensures events == old(events) + [SelectAnimals(None, None)] + (if hasOnClose then [CloseRequested] else [])
    {
      HandleReset();
      if hasOnClose {
        events := events + [CloseRequested];
      }
    }

    /** What the view draws: the comparison of the two slots. */
    function Data(): (d: Option<ComparisonData>)
      reads this
      ensures d.Some? <==> animal1.Some? && animal2.Some?
    {
      GetComparisonData(animal1, animal2)
    }
  }

  /**
   * The first list is never disabled, so picking the second slot's animal in
   * it fills both slots with the same animal; "Start Comparison" then reports
   * that animal paired with itself.
   */
  method SameAnimalPair(a: Animal) returns (events: seq<PickerEvent>)
    ensures events == [SelectAnimals(Some(a), Some(a))]
  {
    var picker := new ComparisonPicker(true, true);
    picker.HandleAnimal2Select(a);
    picker.HandleAnimal1Select(a);
    picker.HandleStartComparison();
    events := picker.events;
  }
}

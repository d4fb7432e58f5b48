/** The value types of the drone fleet: a drone, the medicines it carries, and
    the two enumerations of drone models and drone states. Java `long` and
    `int` fields are kept inside their 64- and 32-bit ranges by subset types. */
module Models {
  import opened Outcomes

  type Int32 = x: int | -0x8000_0000 <= x < 0x8000_0000
  type Int64 = x: int | -0x8000_0000_0000_0000 <= x < 0x8000_0000_0000_0000

  datatype Model = Lightweight | Middleweight | Cruiserweight | Heavyweight

  datatype State = Idle | Loading | Loaded | Delivering | Delivered | Returning

  /** A cargo item: its name, its weight, its code and the reference of its stored image. */
  datatype Medicine = Medicine(name: string, weightGrams: Int64, code: string, imageId: string)

  datatype Drone = Drone(
    serialNumber: string,
    model: Model,
    weightLimitGrams: Int64,
    batteryCapacityPercentage: Int32,
    state: State,
    medicines: seq<Medicine>)

  /** The four-argument constructor: a drone that has just been registered. */
  function NewDrone(serialNumber: string, model: Model, weightLimitGrams: Int64,
                    batteryCapacityPercentage: Int32): (d: Drone)
    ensures d.serialNumber == serialNumber && d.model == model
    ensures d.weightLimitGrams == weightLimitGrams
    ensures d.batteryCapacityPercentage == batteryCapacityPercentage
    ensures d.state == Idle && d.medicines == []
  {
    Drone(serialNumber, model, weightLimitGrams, batteryCapacityPercentage, Idle, [])
  }

  /** Java's `String.length()`: the number of UTF-16 code units, where a
      character outside the Basic Multilingual Plane takes two. */
  function Utf16Length(s: string): (n: nat)
    ensures |s| <= n <= 2 * |s|
    ensures n == |s| <==> forall i :: 0 <= i < |s| ==> (s[i] as int) < 0x1_0000
  {
    if s == [] then 0
    else (if (s[0] as int) < 0x1_0000 then 1 else 2) + Utf16Length(s[1..])
  }

  /** Two characters outside the Basic Multilingual Plane make a Java string of length four. */
  lemma AstralPairLength()
    ensures Utf16Length("\U{1F48A}\U{1F48A}") == 4
  {
    var s := "\U{1F48A}\U{1F48A}";
    assert s[1..][1..] == [];
  }

  // ---------------------------------------------------------------------------
  // Enumerations: values() in declaration order, name() and valueOf(name)

  /** No two values of an enumeration share a name. */
  ghost predicate DistinctNames<T>(values: seq<T>, name: T -> string)
  {
    forall j, k :: 0 <= j < k < |values| ==> name(values[j]) != name(values[k])
  }

  /** valueOf: the first value of the enumeration whose name is `s`, if any. */
  function ValueOf<T>(values: seq<T>, name: T -> string, s: string): (r: Option<T>)
    ensures r.Some? ==> r.value in values && name(r.value) == s
    ensures r.None? ==> forall k :: 0 <= k < |values| ==> name(values[k]) != s
    decreases |values|
  {
    if values == [] then None
    else if name(values[0]) == s then Some(values[0])
    else ValueOf(values[1..], name, s)
  }

  lemma {:induction false} ValueOfName<T>(values: seq<T>, name: T -> string, i: nat)
    requires i < |values| && DistinctNames(values, name)
    ensures ValueOf(values, name, name(values[i])) == Some(values[i])
    decreases i
  {
    if i > 0 {
      assert name(values[0]) != name(values[i]);
      assert values[1..][i - 1] == values[i];
      ValueOfName(values[1..], name, i - 1);
    }
  }

  function ModelValues(): (r: seq<Model>)
    ensures |r| == 4 && forall j, k :: 0 <= j < k < |r| ==> r[j] != r[k]
  {
    [Lightweight, Middleweight, Cruiserweight, Heavyweight]
  }

  function ModelName(m: Model): string
  {
    match m
    case Lightweight => "LIGHTWEIGHT"
    case Middleweight => "MIDDLEWEIGHT"
    case Cruiserweight => "CRUISERWEIGHT"
    case Heavyweight => "HEAVYWEIGHT"
  }

  /** Position of a model in the declaration order; every model has one, so
      ModelValues() lists every model exactly once. */
  function ModelOrdinal(m: Model): (r: nat)
    ensures r < |ModelValues()| && ModelValues()[r] == m
  {
    match m
    case Lightweight => 0
    case Middleweight => 1
    case Cruiserweight => 2
    case Heavyweight => 3
  }

  function ModelValueOf(s: string): Option<Model>
  {
    ValueOf(ModelValues(), ModelName, s)
  }

  /** Model.valueOf accepts exactly the four declared names, each naming its own constant. */
  lemma ModelValueOfIff(s: string, m: Model)
    ensures ModelValueOf(s) == Some(m) <==> s == ModelName(m)
  {
    assert DistinctNames(ModelValues(), ModelName);
    ValueOfName(ModelValues(), ModelName, ModelOrdinal(m));
  }

  function StateValues(): (r: seq<State>)
    ensures |r| == 6 && forall j, k :: 0 <= j < k < |r| ==> r[j] != r[k]
  {
    [Idle, Loading, Loaded, Delivering, Delivered, Returning]
  }

  function StateName(st: State): string
  {
    match st
    case Idle => "IDLE"
    case Loading => "LOADING"
    case Loaded => "LOADED"
    case Delivering => "DELIVERING"
    case Delivered => "DELIVERED"
    case Returning => "RETURNING"
  }

  /** Position of a state in the declaration order. */
  function StateOrdinal(st: State): (r: nat)
    ensures r < |StateValues()| && StateValues()[r] == st
  {
    match st
    case Idle => 0
    case Loading => 1
    case Loaded => 2
    case Delivering => 3
    case Delivered => 4
    case Returning => 5
  }

  function StateValueOf(s: string): Option<State>
  {
    ValueOf(StateValues(), StateName, s)
  }

  /** State.valueOf accepts exactly the six declared names, each naming its own constant. */
  lemma StateValueOfIff(s: string, st: State)
    ensures StateValueOf(s) == Some(st) <==> s == StateName(st)
  {
    assert DistinctNames(StateValues(), StateName);
    ValueOfName(StateValues(), StateName, StateOrdinal(st));
  }
}

/** The read-only projection of a drone into the record the tests' lookup
    client expects: every scalar field is copied, and each medicine loses its image
    reference. */
module Responses {
  import opened Models

  datatype MedicineResponse = MedicineResponse(name: string, weightGrams: Int64, code: string)

  datatype DroneResponse = DroneResponse(
    serialNumber: string,
    model: Model,
    weightLimitGrams: Int64,
    batteryCapacityPercentage: Int32,
    state: State,
    medicines: seq<MedicineResponse>)

  function ToMedicineResponse(m: Medicine): (r: MedicineResponse)
    ensures r.name == m.name && r.weightGrams == m.weightGrams && r.code == m.code
  {
    MedicineResponse(m.name, m.weightGrams, m.code)
  }

  /** Two medicines project to the same response exactly when they differ at
      most in their image reference. */
  lemma ProjectionForgetsImageOnly(m1: Medicine, m2: Medicine)
    ensures ToMedicineResponse(m1) == ToMedicineResponse(m2) <==> m1.(imageId := m2.imageId) == m2
  {
  }

  /** The element-wise projection of a medicine list, keeping length and order. */
  function ProjectAll(ms: seq<Medicine>): (r: seq<MedicineResponse>)
    ensures |r| == |ms|
    ensures forall k :: 0 <= k < |ms| ==> r[k] == ToMedicineResponse(ms[k])
  {
    if ms == [] then [] else [ToMedicineResponse(ms[0])] + ProjectAll(ms[1..])
  }

  lemma ProjectAllAppend(a: seq<Medicine>, b: seq<Medicine>)
    ensures ProjectAll(a + b) == ProjectAll(a) + ProjectAll(b)
  {
    assert forall k :: 0 <= k < |b| ==> (a + b)[|a| + k] == b[k];
  }

  function ToDroneResponse(d: Drone): (r: DroneResponse)
    ensures r.serialNumber == d.serialNumber && r.model == d.model
    ensures r.weightLimitGrams == d.weightLimitGrams
    ensures r.batteryCapacityPercentage == d.batteryCapacityPercentage
    ensures r.state == d.state
    ensures |r.medicines| == |d.medicines|
    ensures forall k :: 0 <= k < |d.medicines| ==> r.medicines[k] == ToMedicineResponse(d.medicines[k])
  {
    DroneResponse(d.serialNumber, d.model, d.weightLimitGrams, d.batteryCapacityPercentage,
                  d.state, ProjectAll(d.medicines))
  }

  /** A freshly registered drone projects to its registration inputs, state
      IDLE and no medicines. */
  lemma RegisteredProjection(serialNumber: string, model: Model, weightLimitGrams: Int64,
                             batteryCapacityPercentage: Int32)
    ensures ToDroneResponse(NewDrone(serialNumber, model, weightLimitGrams, batteryCapacityPercentage))
         == DroneResponse(serialNumber, model, weightLimitGrams, batteryCapacityPercentage, Idle, [])
  {
  }

  /** Extending a drone's medicine list extends its projection by the
      projection of the new medicines, leaving the rest of the record alone. */
  lemma AppendedProjection(d: Drone, added: seq<Medicine>)
    ensures var before := ToDroneResponse(d);
            ToDroneResponse(d.(medicines := d.medicines + added))
              == before.(medicines := before.medicines + ProjectAll(added))
  {
    ProjectAllAppend(d.medicines, added);
  }
}

/** The loading scenario of the controller's tests, evaluated on the model:
    register one drone, upload two declarations and their two images, and
    read the drone back through the projection. The lemmas are stated for any
    serial number and any two codes that pass the controller's checks, and
    then applied to the tests' own data. */
module Scenarios {
  import opened Outcomes
  import opened Models
  import opened Responses
  import opened Controller

  const TestSerial: string := "1TEST3R002016J"
  const TestFirstCode: string := "XYZ 1D456345T"
  const TestSecondCode: string := "XYZ 2D456345T"

  /** Storage that succeeds for every image. */
  const StoredAt: nat -> Option<string> := k => Some("stored")

  function FirstRequest(code: string): MedicineRequest { MedicineRequest("first_medicine", 10, code) }
  function SecondRequest(code: string): MedicineRequest { MedicineRequest("second_medicine", 15, code) }

  /** The body the tests send: per medicine, a declaration part and an image
      part, both with the medicine's code as file name. */
  function TestBody(c1: string, c2: string): seq<Part>
  {
    [ Part(MedicinesPartName, c1, true, Some(FirstRequest(c1))),
      Part(ImagesPartName, c1, true, None),
      Part(MedicinesPartName, c2, true, Some(SecondRequest(c2))),
      Part(ImagesPartName, c2, true, None) ]
  }

  /** The codes the scenario works with: distinct, and long enough as temp-file prefixes. */
  predicate UsableCodes(c1: string, c2: string)
  {
    c1 != c2 && 3 <= Utf16Length(c1) && 3 <= Utf16Length(c2)
  }

  function RegisteredStore(serial: string): map<string, Drone>
    requires ValidRegistration(serial, 250, 100)
  {
    Registered(map[], serial, Middleweight, 250, 100)
  }

  function LoadedMedicines(c1: string, c2: string): seq<Medicine>
  {
    [Medicine(c1, 10, c1, "stored"), Medicine(c2, 15, c2, "stored")]
  }

  function LoadedDrone(serial: string, c1: string, c2: string): Drone
  {
    NewDrone(serial, Middleweight, 250, 100).(medicines := LoadedMedicines(c1, c2))
  }

  lemma CollectTestBody(c1: string, c2: string)
    requires c1 != c2
    ensures Collect(Intended, TestBody(c1, c2))
         == Success(Uploads(map[c1 := FirstRequest(c1), c2 := SecondRequest(c2)], [c1, c2]))
  {
    var body := TestBody(c1, c2);
    assert ImagesPartName != MedicinesPartName;
    assert body[..3][..2] == body[..2] && body[..2][..1] == body[..1] && body[..1][..0] == [];
    assert [] + [c1] == [c1] && [c1] + [c2] == [c1, c2];
    assert Collect(Intended, body[..1]) == Success(Uploads(map[c1 := FirstRequest(c1)], []));
    assert Collect(Intended, body[..2]) == Success(Uploads(map[c1 := FirstRequest(c1)], [c1]));
    assert Collect(Intended, body[..3])
        == Success(Uploads(map[c1 := FirstRequest(c1), c2 := SecondRequest(c2)], [c1]));
  }

  lemma BuildTestImages(c1: string, c2: string)
    requires UsableCodes(c1, c2)
    ensures Build(map[c1 := FirstRequest(c1), c2 := SecondRequest(c2)], [c1, c2], StoredAt)
         == Success(LoadedMedicines(c1, c2))
  {
    var declarations := map[c1 := FirstRequest(c1), c2 := SecondRequest(c2)];
    var images := [c1, c2];
    assert StoredAt(0) == Some("stored") && StoredAt(1) == Some("stored");
    assert Storable(declarations, images[0], StoredAt(0)) && Storable(declarations, images[1], StoredAt(1));
    var r := Build(declarations, images, StoredAt);
    assert r.value[0] == Medicine(c1, 10, c1, "stored") && r.value[1] == Medicine(c2, 15, c2, "stored");
    assert r.value == LoadedMedicines(c1, c2);
  }

  lemma LoadTestBody(serial: string, c1: string, c2: string)
    requires ValidRegistration(serial, 250, 100) && UsableCodes(c1, c2)
    ensures Load(Intended, RegisteredStore(serial), serial, TestBody(c1, c2), StoredAt)
         == Success(RegisteredStore(serial)[serial := LoadedDrone(serial, c1, c2)])
  {
    CollectTestBody(c1, c2);
    BuildTestImages(c1, c2);
  }

  /** With the intended guard the upload succeeds, the drone stays IDLE, and
      each medicine is named after its image's file name (the code), not
      after the name in its declaration. */
  lemma LoadingScenarioFor(serial: string, c1: string, c2: string)
    requires ValidRegistration(serial, 250, 100) && UsableCodes(c1, c2)
    requires c1 != "first_medicine"
    ensures var r := Load(Intended, RegisteredStore(serial), serial, TestBody(c1, c2), StoredAt);
            && r.Success? && serial in r.value
            && ToDroneResponse(r.value[serial])
               == DroneResponse(serial, Middleweight, 250, 100, Idle,
                                [MedicineResponse(c1, 10, c1), MedicineResponse(c2, 15, c2)])
            && ToDroneResponse(r.value[serial])
               != DroneResponse(serial, Middleweight, 250, 100, Idle,
                                [MedicineResponse("first_medicine", 10, c1),
                                 MedicineResponse("second_medicine", 15, c2)])
  {
    LoadTestBody(serial, c1, c2);
    var loaded := LoadedDrone(serial, c1, c2);
    assert ProjectAll(loaded.medicines) == [MedicineResponse(c1, 10, c1), MedicineResponse(c2, 15, c2)];
  }

  /** The tests' serial number and codes pass the controller's checks. */
  lemma TestDataIsUsable()
    ensures ValidRegistration(TestSerial, 250, 100) && UsableCodes(TestFirstCode, TestSecondCode)
    ensures TestFirstCode != "first_medicine"
  {
    assert TestFirstCode[4] != TestSecondCode[4];
    assert TestFirstCode[0] != "first_medicine"[0];
  }

  /** The loading test's own data: loaded with medicines named by code, which
      is not the response the test expects. */
  lemma LoadingScenario()
    ensures var r := Load(Intended, RegisteredStore(TestSerial), TestSerial,
                          TestBody(TestFirstCode, TestSecondCode), StoredAt);
            && r.Success? && TestSerial in r.value
            && ToDroneResponse(r.value[TestSerial]).state == Idle
            && ToDroneResponse(r.value[TestSerial]).medicines
               == [MedicineResponse(TestFirstCode, 10, TestFirstCode), MedicineResponse(TestSecondCode, 15, TestSecondCode)]
  {
    TestDataIsUsable();
    LoadingScenarioFor(TestSerial, TestFirstCode, TestSecondCode);
  }

  /** With the guard as written the same upload is refused at its first part. */
  lemma LoadingScenarioAsWritten(serial: string, c1: string, c2: string)
    requires ValidRegistration(serial, 250, 100)
    ensures Load(AsWritten, RegisteredStore(serial), serial, TestBody(c1, c2), StoredAt) == Failure(UnsupportedPart)
  {
    CollectAsWrittenFails(TestBody(c1, c2));
  }
}

/** The drone controller: an in-memory registry of drones keyed by serial
    number, and the loading of medicines from the parts of a multipart upload.

    A loading request is a left fold over its parts (the subscriber's onNext),
    followed by a completion step (onComplete) that turns every image into one
    medicine and appends those medicines to the drone's list. The pure
    functions below specify that fold and that step; the classes at the end of
    the module carry them out on mutable state. */
module Controller {
  import opened Outcomes
  import opened Models

  const MedicinesPartName: string := "medicines"
  const ImagesPartName: string := "images"

  /** The decoded JSON declaration of one medicine. */
  datatype MedicineRequest = MedicineRequest(name: string, weightGrams: Int64, code: string)

  /** One part of the multipart body: its form name, its file name, whether it
      is a file upload, and its bytes decoded as a declaration (None when they
      are not a well-formed MedicineRequest; unused for images). */
  datatype Part = Part(name: string, filename: string, isFile: bool, payload: Option<MedicineRequest>)

  /** The ways a loading request fails, one per exception the controller can raise. */
  datatype LoadError =
    | UnsupportedPart                       // the part guard rejected a part
    | WrongFormat                           // a declaration part that does not decode
    | PrefixTooShort(filename: string)      // a temp-file prefix under three characters
    | ImageWriteFailed(filename: string)    // creating or writing the temp file failed
    | MissingDeclaration(filename: string)  // no declaration under the image's file name
    | UnknownDrone(serialNumber: string)    // no drone under the requested serial number

  // ---------------------------------------------------------------------------
  // Registration

  /** The bounds the endpoint's validation annotations put on a registration;
      the serial number's size is its Java length in UTF-16 code units. */
  predicate ValidRegistration(serialNumber: string, weightLimitGrams: Int64, batteryCapacityPercentage: Int32)
  {
    && 1 <= Utf16Length(serialNumber) <= 100
    && 1 <= weightLimitGrams <= 500
    && 0 <= batteryCapacityPercentage <= 100
  }

  /** The registry after a registration: the serial number maps to a new IDLE
      drone with no medicines, whether or not it was there before, and every
      other entry is unchanged. */
  function Registered(store: map<string, Drone>, serialNumber: string, model: Model,
                      weightLimitGrams: Int64, batteryCapacityPercentage: Int32): (r: map<string, Drone>)
    requires ValidRegistration(serialNumber, weightLimitGrams, batteryCapacityPercentage)
    ensures r.Keys == store.Keys + {serialNumber}
    ensures serialNumber in store ==> |r| == |store|
    ensures var d := r[serialNumber];
            && d.serialNumber == serialNumber && d.model == model
            && d.weightLimitGrams == weightLimitGrams
            && d.batteryCapacityPercentage == batteryCapacityPercentage
            && d.state == Idle && d.medicines == []
    ensures forall s :: s in store && s != serialNumber ==> r[s] == store[s]
  {
    store[serialNumber := NewDrone(serialNumber, model, weightLimitGrams, batteryCapacityPercentage)]
  }

  // ---------------------------------------------------------------------------
  // The part guard

  /** The guard as written: a disjunction of three negations. */
  predicate RejectedAsWritten(p: Part)
  {
    p.name != MedicinesPartName || p.name != ImagesPartName || !p.isFile
  }

  /** The guard as intended: reject a part that is not a file upload or whose
      name is neither of the two supported names. */
  predicate Rejected(p: Part)
  {
    (p.name != MedicinesPartName && p.name != ImagesPartName) || !p.isFile
  }

  /** No part name equals both supported names, so the written guard rejects
      every part, including a well-formed declaration. */
  lemma AsWrittenRejectsEveryPart(p: Part)
    ensures RejectedAsWritten(p)
  {
  }

  /** The intended guard admits exactly the file uploads named "medicines" or "images". */
  lemma AcceptedIff(p: Part)
    ensures !Rejected(p) <==> p.isFile && (p.name == MedicinesPartName || p.name == ImagesPartName)
  {
  }

  datatype Guard = AsWritten | Intended

  predicate Rejects(g: Guard, p: Part)
  {
    match g
    case AsWritten => RejectedAsWritten(p)
    case Intended => Rejected(p)
  }

  // ---------------------------------------------------------------------------
  // Collecting the parts (onNext)

  /** What the subscriber has gathered: declarations by file name, and the
      file names of the images in arrival order. */
  datatype Uploads = Uploads(declarations: map<string, MedicineRequest>, images: seq<string>)

  const NoUploads := Uploads(map[], [])

  /** One onNext call. */
  function Step(g: Guard, u: Uploads, p: Part): Result<Uploads, LoadError>
  {
    if Rejects(g, p) then Failure(UnsupportedPart)
    else if p.name == MedicinesPartName then
      match p.payload
      case None => Failure(WrongFormat)
      case Some(request) => Success(u.(declarations := u.declarations[p.filename := request]))
    else if p.name == ImagesPartName then Success(u.(images := u.images + [p.filename]))
    else Success(u)
  }

  /** onNext over the parts in order; the first exception ends the stream. */
  function Collect(g: Guard, parts: seq<Part>): Result<Uploads, LoadError>
    decreases |parts|
  {
    if parts == [] then Success(NoUploads)
    else
      match Collect(g, parts[..|parts| - 1])
      case Failure(e) => Failure(e)
      case Success(u) => Step(g, u, parts[|parts| - 1])
  }

  /** A part that onNext takes without raising, under the intended guard. */
  predicate Accepted(p: Part)
  {
    && !Rejected(p)
    && (p.name == MedicinesPartName ==> p.payload.Some?)
  }

  /** The error onNext raises for a part it does not accept. */
  function PartError(p: Part): LoadError
  {
    if Rejected(p) then UnsupportedPart else WrongFormat
  }

  /** The file names of the image parts, in order (an independent reading of the parts). */
  function ImageNames(parts: seq<Part>): seq<string>
  {
    if parts == [] then []
    else (if parts[0].name == ImagesPartName then [parts[0].filename] else []) + ImageNames(parts[1..])
  }

  predicate Declares(p: Part, filename: string)
  {
    p.name == MedicinesPartName && p.filename == filename
  }

  /** The payload of the last declaration part with the given file name, if any. */
  function DeclaredRequest(parts: seq<Part>, filename: string): Option<MedicineRequest>
    decreases |parts|
  {
    if parts == [] then None
    else if Declares(parts[|parts| - 1], filename) then parts[|parts| - 1].payload
    else DeclaredRequest(parts[..|parts| - 1], filename)
  }

  /** As written, the first part of a non-empty body is rejected and nothing is collected. */
  lemma {:induction false} CollectAsWrittenFails(parts: seq<Part>)
    requires |parts| > 0
    ensures Collect(AsWritten, parts) == Failure(UnsupportedPart)
    decreases |parts|
  {
    if |parts| > 1 {
      CollectAsWrittenFails(parts[..|parts| - 1]);
    } else {
      assert parts[..0] == [];
    }
  }

  /** Once a prefix of the parts has failed, the whole stream fails with the same error. */
  lemma {:induction false} CollectFailureIsFinal(g: Guard, parts: seq<Part>, i: nat)
    requires i <= |parts| && Collect(g, parts[..i]).Failure?
    ensures Collect(g, parts) == Collect(g, parts[..i])
    decreases |parts| - i
  {
    if i == |parts| {
      assert parts[..i] == parts;
    } else {
      var prefix := parts[..|parts| - 1];
      assert prefix[..i] == parts[..i];
      CollectFailureIsFinal(g, prefix, i);
    }
  }

  /** Under the intended guard, collecting succeeds exactly when every part is accepted. */
  lemma {:induction false} CollectSucceedsIff(parts: seq<Part>)
    ensures Collect(Intended, parts).Success? <==> forall i :: 0 <= i < |parts| ==> Accepted(parts[i])
    decreases |parts|
  {
    if parts != [] {
      var prefix := parts[..|parts| - 1];
      CollectSucceedsIff(prefix);
      assert forall i :: 0 <= i < |prefix| ==> prefix[i] == parts[i];
    }
  }

  /** Under the intended guard, a failing stream reports the first part it does not accept. */
  lemma {:induction false} CollectReportsFirstBadPart(parts: seq<Part>, k: nat)
    requires k < |parts| && !Accepted(parts[k])
    requires forall i :: 0 <= i < k ==> Accepted(parts[i])
    ensures Collect(Intended, parts) == Failure(PartError(parts[k]))
    decreases |parts|
  {
    var prefix := parts[..|parts| - 1];
    if k < |parts| - 1 {
      CollectReportsFirstBadPart(prefix, k);
    } else {
      assert forall i :: 0 <= i < |prefix| ==> prefix[i] == parts[i];
      CollectSucceedsIff(prefix);
    }
  }

  lemma {:induction false} ImageNamesSnoc(parts: seq<Part>, p: Part)
    ensures ImageNames(parts + [p]) == ImageNames(parts) + (if p.name == ImagesPartName then [p.filename] else [])
    decreases |parts|
  {
    if parts != [] {
      assert (parts + [p])[1..] == parts[1..] + [p];
      ImageNamesSnoc(parts[1..], p);
    }
  }

  /** The images are gathered in arrival order: exactly the image parts' file names. */
  lemma {:induction false} CollectImages(parts: seq<Part>)
    requires Collect(Intended, parts).Success?
    ensures Collect(Intended, parts).value.images == ImageNames(parts)
    decreases |parts|
  {
    if parts != [] {
      var prefix := parts[..|parts| - 1];
      CollectImages(prefix);
      ImageNamesSnoc(prefix, parts[|parts| - 1]);
      assert prefix + [parts[|parts| - 1]] == parts;
    }
  }

  /** The declarations are indexed by file name, and for each file name the
      last declaration part wins. */
  lemma {:induction false} CollectDeclarations(parts: seq<Part>, filename: string)
    requires Collect(Intended, parts).Success?
    ensures var d := Collect(Intended, parts).value.declarations;
            && (filename in d <==> DeclaredRequest(parts, filename).Some?)
            && (filename in d ==> DeclaredRequest(parts, filename) == Some(d[filename]))
    decreases |parts|
  {
    if parts != [] {
      CollectDeclarations(parts[..|parts| - 1], filename);
    }
  }

  /** A later declaration of the same file name replaces an earlier one. */
  lemma {:induction false} LatestDeclarationWins(parts: seq<Part>, filename: string, i: nat)
    requires i < |parts| && Declares(parts[i], filename)
    requires forall j :: i < j < |parts| ==> !Declares(parts[j], filename)
    ensures DeclaredRequest(parts, filename) == parts[i].payload
    decreases |parts|
  {
    if i < |parts| - 1 {
      var prefix := parts[..|parts| - 1];
      assert forall j :: i < j < |prefix| ==> prefix[j] == parts[j];
      LatestDeclarationWins(prefix, filename, i);
    }
  }

  // ---------------------------------------------------------------------------
  // Completing the upload (onComplete)

  /** An image turns into a medicine: its temp-file prefix (the file name) has
      a Java length of at least three, storing it succeeded, and it has a declaration. */
  predicate Storable(declarations: map<string, MedicineRequest>, filename: string, saved: Option<string>)
  {
    3 <= Utf16Length(filename) && saved.Some? && filename in declarations
  }

  /** A file name of two characters outside the Basic Multilingual Plane has a
      Java length of four, so it is a valid temp-file prefix. */
  lemma AstralFileNameIsStorable(declarations: map<string, MedicineRequest>, path: string)
    requires "\U{1F48A}\U{1F48A}" in declarations
    ensures Storable(declarations, "\U{1F48A}\U{1F48A}", Some(path))
  {
    AstralPairLength();
  }

  /** The exception raised for an image that does not turn into a medicine,
      in the order the checks are met: the temp-file prefix, the write, then
      the declaration lookup. */
  function ImageError(declarations: map<string, MedicineRequest>, filename: string, saved: Option<string>): LoadError
  {
    if Utf16Length(filename) < 3 then PrefixTooShort(filename)
    else if saved.None? then ImageWriteFailed(filename)
    else MissingDeclaration(filename)
  }

  /** Maps each image, in order, to one medicine named by its file name, with
      weight and code from the declaration under that file name. `save(k)` is
      the stored path of the k-th image, or None when storing it failed. */
  function Build(declarations: map<string, MedicineRequest>, images: seq<string>,
                 save: nat -> Option<string>): (r: Result<seq<Medicine>, LoadError>)
    ensures r.Success? <==> forall k :: 0 <= k < |images| ==> Storable(declarations, images[k], save(k))
    ensures r.Success? ==> |r.value| == |images|
    ensures r.Success? ==> forall k :: 0 <= k < |images| ==>
              r.value[k] == Medicine(images[k], declarations[images[k]].weightGrams,
                                     declarations[images[k]].code, save(k).value)
    decreases |images|
  {
    if images == [] then Success([])
    else
      var n := |images| - 1;
      match Build(declarations, images[..n], save)
      case Failure(e) => Failure(e)
      case Success(medicines) =>
        if !Storable(declarations, images[n], save(n)) then Failure(ImageError(declarations, images[n], save(n)))
        else
          var request := declarations[images[n]];
          Success(medicines + [Medicine(images[n], request.weightGrams, request.code, save(n).value)])
  }

  /** A failing completion reports the first image that does not turn into a medicine. */
  lemma {:induction false} BuildReportsFirstFailure(declarations: map<string, MedicineRequest>, images: seq<string>,
                                                    save: nat -> Option<string>, k: nat)
    requires k < |images| && !Storable(declarations, images[k], save(k))
    requires forall j :: 0 <= j < k ==> Storable(declarations, images[j], save(j))
    ensures Build(declarations, images, save) == Failure(ImageError(declarations, images[k], save(k)))
    decreases |images|
  {
    var n := |images| - 1;
    if k < n {
      BuildReportsFirstFailure(declarations, images[..n], save, k);
    } else {
      var _ := Build(declarations, images[..n], save);
    }
  }

  /** A declaration whose file name no image carries changes nothing. */
  lemma {:induction false} BuildIgnoresUnmatchedDeclaration(declarations: map<string, MedicineRequest>,
                                                            images: seq<string>, save: nat -> Option<string>,
                                                            filename: string, request: MedicineRequest)
    requires filename !in images
    ensures Build(declarations[filename := request], images, save) == Build(declarations, images, save)
    decreases |images|
  {
    if images != [] {
      BuildIgnoresUnmatchedDeclaration(declarations, images[..|images| - 1], save, filename, request);
    }
  }

  /** `getMedicines().addAll(...)`: the new medicines go after the existing ones. */
  function AddMedicines(d: Drone, added: seq<Medicine>): (r: Drone)
    ensures |r.medicines| == |d.medicines| + |added|
    ensures r.medicines[..|d.medicines|] == d.medicines && r.medicines[|d.medicines|..] == added
    ensures r.(medicines := d.medicines) == d
  {
    d.(medicines := d.medicines + added)
  }

  /** onComplete: build the medicines, then append them to the drone's list. */
  function Complete(store: map<string, Drone>, serialNumber: string, u: Uploads,
                    save: nat -> Option<string>): Result<map<string, Drone>, LoadError>
  {
    match Build(u.declarations, u.images, save)
    case Failure(e) => Failure(e)
    case Success(medicines) =>
      if serialNumber !in store then Failure(UnknownDrone(serialNumber))
      else Success(store[serialNumber := AddMedicines(store[serialNumber], medicines)])
  }

  /** A whole loading request: onNext over the parts, then onComplete. */
  function Load(g: Guard, store: map<string, Drone>, serialNumber: string, parts: seq<Part>,
                save: nat -> Option<string>): Result<map<string, Drone>, LoadError>
  {
    match Collect(g, parts)
    case Failure(e) => Failure(e)
    case Success(u) => Complete(store, serialNumber, u, save)
  }

  /** The k-th medicine a request adds: named by the k-th image's file name, with
      weight and code from the last declaration of that file name, and the k-th
      stored path as image reference. */
  predicate MedicineFromParts(parts: seq<Part>, save: nat -> Option<string>, k: nat, m: Medicine)
    requires k < |ImageNames(parts)|
  {
    var filename := ImageNames(parts)[k];
    && DeclaredRequest(parts, filename).Some?
    && save(k).Some?
    && m == Medicine(filename, DeclaredRequest(parts, filename).value.weightGrams,
                     DeclaredRequest(parts, filename).value.code, save(k).value)
  }

  /** What a request that succeeds does: it extends exactly the addressed drone's
      medicine list by one medicine per image part, in image order, and leaves
      its other fields (the state included) and every other drone unchanged. */
  lemma LoadEffect(store: map<string, Drone>, serialNumber: string, parts: seq<Part>,
                   save: nat -> Option<string>)
    requires Load(Intended, store, serialNumber, parts, save).Success?
    ensures serialNumber in store
    ensures var after := Load(Intended, store, serialNumber, parts, save).value;
            && after.Keys == store.Keys
            && (forall s :: s in store && s != serialNumber ==> after[s] == store[s])
            && after[serialNumber].(medicines := store[serialNumber].medicines) == store[serialNumber]
    ensures var before := store[serialNumber].medicines;
            var now := Load(Intended, store, serialNumber, parts, save).value[serialNumber].medicines;
            && |now| == |before| + |ImageNames(parts)|
            && now[..|before|] == before
            && forall k :: |before| <= k < |now| ==> MedicineFromParts(parts, save, k - |before|, now[k])
  {
    var u := Collect(Intended, parts).value;
    CollectImages(parts);
    var medicines := Build(u.declarations, u.images, save).value;
    forall k | 0 <= k < |ImageNames(parts)|
      ensures MedicineFromParts(parts, save, k, medicines[k])
    {
      CollectDeclarations(parts, u.images[k]);
    }
  }

  /** A request succeeds exactly when every part is accepted, every image is
      stored under a prefix of at least three characters and has a
      declaration, and the drone is registered. */
  lemma LoadSucceedsIff(store: map<string, Drone>, serialNumber: string, parts: seq<Part>,
                        save: nat -> Option<string>)
    ensures Load(Intended, store, serialNumber, parts, save).Success? <==>
            && (forall i :: 0 <= i < |parts| ==> Accepted(parts[i]))
            && (forall k :: 0 <= k < |ImageNames(parts)| ==>
                  3 <= Utf16Length(ImageNames(parts)[k]) && save(k).Some? && DeclaredRequest(parts, ImageNames(parts)[k]).Some?)
            && serialNumber in store
  {
    CollectSucceedsIff(parts);
    if Collect(Intended, parts).Success? {
      var u := Collect(Intended, parts).value;
      CollectImages(parts);
      forall k | 0 <= k < |u.images|
        ensures u.images[k] in u.declarations <==> DeclaredRequest(parts, u.images[k]).Some?
      {
        CollectDeclarations(parts, u.images[k]);
      }
    }
  }

  /** An unknown serial number fails the request, after every image was handled. */
  lemma LoadUnknownDrone(store: map<string, Drone>, serialNumber: string, parts: seq<Part>,
                         save: nat -> Option<string>)
    requires serialNumber !in store
    requires Collect(Intended, parts).Success?
    requires Build(Collect(Intended, parts).value.declarations, Collect(Intended, parts).value.images, save).Success?
    ensures Load(Intended, store, serialNumber, parts, save) == Failure(UnknownDrone(serialNumber))
  {
  }

  // ---------------------------------------------------------------------------
  // The controller and its per-request subscriber

  class DronesController {
    var inMemoryDatastore: map<string, Drone>

    constructor ()
      ensures inMemoryDatastore == map[]
    {
      inMemoryDatastore := map[];
    }

    /** Puts a new drone under its serial number, replacing any drone already there. */
    method Register(serialNumber: string, model: Model, weightLimitGrams: Int64,
                    batteryCapacityPercentage: Int32)
      requires ValidRegistration(serialNumber, weightLimitGrams, batteryCapacityPercentage)
      modifies this
      ensures inMemoryDatastore
           == Registered(old(inMemoryDatastore), serialNumber, model, weightLimitGrams, batteryCapacityPercentage)
    {
      inMemoryDatastore := inMemoryDatastore[serialNumber :=
        NewDrone(serialNumber, model, weightLimitGrams, batteryCapacityPercentage)];
    }

    /** Feeds the parts one by one to a fresh subscriber, stopping at the first
        exception, then completes it. The registry changes only when the whole
        request succeeds. */
    method RegisterMedicine(droneSerialNumber: string, body: seq<Part>, save: nat -> Option<string>)
      returns (outcome: Outcome<LoadError>)
      modifies this
      ensures match Load(Intended, old(inMemoryDatastore), droneSerialNumber, body, save)
              case Success(after) => outcome == Pass && inMemoryDatastore == after
              case Failure(e) => outcome == Fail(e) && inMemoryDatastore == old(inMemoryDatastore)
    {
      var subscriber := new MedicinesSubscriber(this, droneSerialNumber);
      var i := 0;
      while i < |body|
        invariant 0 <= i <= |body|
        invariant inMemoryDatastore == old(inMemoryDatastore)
        invariant Collect(Intended, body[..i]) == Success(subscriber.Collected())
      {
        outcome := subscriber.OnNext(body[i]);
        assert body[..i + 1][..i] == body[..i];
        if outcome.Fail? {
          CollectFailureIsFinal(Intended, body, i + 1);
          return;
        }
        i := i + 1;
      }
      assert body[..i] == body;
      outcome := subscriber.OnComplete(save);
    }
  }

  class MedicinesSubscriber {
    const controller: DronesController
    const droneSerialNumber: string
    var medicinesRequests: map<string, MedicineRequest>
    var caseImagesRequests: seq<string>

    function Collected(): Uploads
      reads this
    {
      Uploads(medicinesRequests, caseImagesRequests)
    }

    constructor (controller: DronesController, droneSerialNumber: string)
      ensures this.controller == controller && this.droneSerialNumber == droneSerialNumber
      ensures Collected() == NoUploads
    {
      this.controller := controller;
      this.droneSerialNumber := droneSerialNumber;
      medicinesRequests := map[];
      caseImagesRequests := [];
    }

    /** Checks the part, then files a declaration under its file name or
        appends an image's file name to the list. */
    method OnNext(part: Part) returns (outcome: Outcome<LoadError>)
      modifies this
      ensures match Step(Intended, old(Collected()), part)
              case Success(u) => outcome == Pass && Collected() == u
              case Failure(e) => outcome == Fail(e) && Collected() == old(Collected())
    {
      if Rejected(part) {
        return Fail(UnsupportedPart);
      }
      if part.name == MedicinesPartName {
        match part.payload
        case None =>
          return Fail(WrongFormat);
        case Some(request) =>
          medicinesRequests := medicinesRequests[part.filename := request];
      } else if part.name == ImagesPartName {
        caseImagesRequests := caseImagesRequests + [part.filename];
      }
      return Pass;
    }

    /** Turns every image into a medicine, then appends them to the drone's list. */
    method OnComplete(save: nat -> Option<string>) returns (outcome: Outcome<LoadError>)
      modifies controller
      ensures match Complete(old(controller.inMemoryDatastore), droneSerialNumber, Collected(), save)
              case Success(after) => outcome == Pass && controller.inMemoryDatastore == after
              case Failure(e) => outcome == Fail(e) && controller.inMemoryDatastore == old(controller.inMemoryDatastore)
    {
      match Build(medicinesRequests, caseImagesRequests, save)
      case Failure(e) =>
        return Fail(e);
      case Success(medicines) =>
        if droneSerialNumber !in controller.inMemoryDatastore {
          return Fail(UnknownDrone(droneSerialNumber));
        }
        var drone := controller.inMemoryDatastore[droneSerialNumber];
        controller.inMemoryDatastore := controller.inMemoryDatastore[droneSerialNumber := AddMedicines(drone, medicines)];
        return Pass;
    }
  }
}

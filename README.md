# Drone dispatch controller: registry and medicine loading

This project models the core of a small drone-dispatch service. The service keeps registered drones in an
in-memory registry keyed by serial number. It loads medicines onto a drone from a multipart upload, where
JSON declarations and images are paired by file name. It reads a drone back as a response record that
leaves out image references.

Modules, one per source file, plus `Outcomes`:

- `Outcomes` (`outcomes.dfy`): `Option`, `Result` and `Outcome`. These stand in for the source's nulls and exceptions.
- `Models` (`models.dfy`): the `Drone` and `Medicine` value types and the `Model` and `State` enumerations.
  Each enumeration has its `values()` order, names and `valueOf`. It also holds the four-argument drone
  constructor as `NewDrone`. The controller file declares its own package-level `Drone` and `Medicine`
  with the same shape. One datatype pair stands for both.
- `Controller` (`controller.dfy`): the controller. `DronesController` is a class whose map field
  `inMemoryDatastore` is updated in place by `Register` and `RegisterMedicine`.
  `MedicinesSubscriber` is the per-request subscriber. Its `OnNext` fills a declaration map and an image
  list. Its `OnComplete` pairs each image with its declaration and appends the medicines to the drone.
  The pure functions `Step`, `Collect`, `Build`, `Complete` and `Load` specify those methods. The lemmas
  state what a request does in terms of the parts themselves.
- `Responses` (`responses.dfy`): the projection of a drone and its medicines into response records.
- `Scenarios` (`scenarios.dfy`): the loading test's data run through the model.

A part of the upload is a record `(name, filename, isFile, payload)`. The payload is the part's bytes
already decoded as a `MedicineRequest`, or `None` when decoding fails. The temp-file store is a parameter
`save: nat -> Option<string>`. `save(k)` is the path where the k-th image was stored, or `None` when
creating or writing the file raised an `IOException`.

## Model

| member | source | states |
|---|---|---|
| `Models.NewDrone` | src/main/java/test/musala/Models.java:22-24 | The four-argument constructor keeps the four given fields, sets state IDLE and starts with an empty medicine list. |
| `Models.ModelValues` | src/main/java/test/musala/Models.java:26-28 | `values()` of `Model` has exactly four entries, pairwise distinct; with `ModelOrdinal` they are all the models. |
| `Models.ModelOrdinal` | src/main/java/test/musala/Models.java:26-28 | Every `Model` sits in `ModelValues()` at its ordinal, so the four constants are all the values there are. |
| `Models.ModelValueOfIff` | src/main/java/test/musala/Models.java:26-28 | `Model.valueOf(s)` gives `m` exactly when `s` is `m`'s name (LIGHTWEIGHT, MIDDLEWEIGHT, CRUISERWEIGHT, HEAVYWEIGHT). |
| `Models.StateValues` | src/main/java/test/musala/Models.java:30-32 | `values()` of `State` has exactly six entries, pairwise distinct; with `StateOrdinal` they are all the states. |
| `Models.StateOrdinal` | src/main/java/test/musala/Models.java:30-32 | Every `State` sits in `StateValues()` at its ordinal, so the six constants are all the values there are. |
| `Models.StateValueOfIff` | src/main/java/test/musala/Models.java:30-32 | `State.valueOf(s)` gives `st` exactly when `s` is `st`'s name (IDLE … RETURNING). |
| `Models.ModelValueOf` | src/main/java/test/musala/Models.java:26-28 | `Model.valueOf`: by `ValueOf`'s contract it returns only a model carrying the requested name; `ModelValueOfIff` gives the exact set of names it accepts. |
| `Models.StateValueOf` | src/main/java/test/musala/Models.java:30-32 | `State.valueOf`: by `ValueOf`'s contract it returns only a state carrying the requested name; `StateValueOfIff` gives the exact set of names it accepts. |
| `Models.Utf16Length` | src/main/java/test/musala/DronesController.java:36 | Java's `String.length()`, which `@Size` and the temp-file prefix check measure: between the number of characters and twice that, and equal to it exactly when no character lies outside the Basic Multilingual Plane. |
| `Models.AstralPairLength` | src/main/java/test/musala/DronesController.java:90 | Two characters outside the Basic Multilingual Plane have a Java length of four. |
| `Models.ValueOf` | src/main/java/test/musala/Models.java:26-32 | An enumeration's `valueOf` returns only a declared constant carrying the requested name, and returns nothing when no constant has that name. |
| `Responses.ToMedicineResponse` | src/main/java/test/musala/DronesResponses.java:24-27 | The response keeps the medicine's name, weight and code; `ProjectionForgetsImageOnly` shows `imageId` is all it drops. |
| `Responses.ProjectionForgetsImageOnly` | src/main/java/test/musala/DronesResponses.java:24-27 | Two medicines project to equal responses if and only if they agree on everything except `imageId`. |
| `Responses.ProjectAll` | src/main/java/test/musala/DronesResponses.java:19 | The response's medicine list has the drone's length and order, element by element projected. |
| `Responses.ProjectAllAppend` | src/main/java/test/musala/DronesResponses.java:19 | Projecting a concatenation equals concatenating the projections. |
| `Responses.ToDroneResponse` | src/main/java/test/musala/DronesResponses.java:16-20 | Serial number, model, weight limit, battery and state are copied unchanged, and the medicines are projected element-wise in order. |
| `Responses.RegisteredProjection` | src/main/java/test/musala/DronesResponses.java:16-20 | A newly registered drone reads back as its registration inputs with state IDLE and no medicines. |
| `Responses.AppendedProjection` | src/main/java/test/musala/DronesResponses.java:16-20 | Appending medicines to a drone appends their projections to its response and changes no other field. |
| `Controller.ValidRegistration` | src/main/java/test/musala/DronesController.java:36-38 | The annotation bounds: serial number of Java length 1 to 100, weight limit 1 to 500, battery 0 to 100. It is the precondition of `Registered` and `Register`. |
| `Controller.Registered` | src/main/java/test/musala/DronesController.java:36-39 | After registration the serial maps to a drone with exactly the given fields, state IDLE and no medicines. An existing entry is replaced, so the registry does not grow. Every other key keeps its drone. |
| `Controller.DronesController.constructor` | src/main/java/test/musala/DronesController.java:31 | The registry starts empty. |
| `Controller.DronesController.Register` | src/main/java/test/musala/DronesController.java:36-39 | Inputs within 1 ≤ Java length of the serial ≤ 100, 1 ≤ weight limit ≤ 500 and 0 ≤ battery ≤ 100 update the registry to `Registered(old registry, …)`. There is no duplicate check. |
| `Controller.RejectedAsWritten` | src/main/java/test/musala/DronesController.java:56-58 | The guard as written, a disjunction of three negations; `AsWrittenRejectsEveryPart` shows it holds for every part. |
| `Controller.Rejected` | src/main/java/test/musala/DronesController.java:56-58 | The intended guard; `AcceptedIff` shows it admits exactly the file uploads named "medicines" or "images". |
| `Controller.AsWrittenRejectsEveryPart` | src/main/java/test/musala/DronesController.java:56-64 | The written part guard is true for every part, a well-formed "medicines" file upload included. |
| `Controller.AcceptedIff` | src/main/java/test/musala/DronesController.java:56-58 | The intended guard accepts exactly the file uploads named "medicines" or "images". |
| `Controller.Step` | src/main/java/test/musala/DronesController.java:55-77 | With the intended guard: one `onNext`: the guard, then a declaration filed under its file name (replacing an earlier one) or an image name appended; an undecodable declaration fails. `OnNext` is proved to perform it. |
| `Controller.Collect` | src/main/java/test/musala/DronesController.java:45-77 | With the intended guard: the `onNext` calls over the body in order, stopping at the first exception. `CollectSucceedsIff`, `CollectReportsFirstBadPart`, `CollectImages` and `CollectDeclarations` characterise its result in terms of the parts. |
| `Controller.CollectAsWrittenFails` | src/main/java/test/musala/DronesController.java:55-64 | With the written guard, any non-empty body fails at its first part with the unsupported-part error. |
| `Controller.CollectFailureIsFinal` | src/main/java/test/musala/DronesController.java:55-77 | The first exception raised by `onNext` ends the stream and decides the outcome. |
| `Controller.CollectSucceedsIff` | src/main/java/test/musala/DronesController.java:56-73 | With the intended guard: collecting succeeds if and only if every part is an accepted file upload and every declaration decodes. |
| `Controller.CollectReportsFirstBadPart` | src/main/java/test/musala/DronesController.java:56-73 | With the intended guard: a failing body reports the error of its first bad part: unsupported part, or wrong format for a declaration that does not decode. |
| `Controller.CollectImages` | src/main/java/test/musala/DronesController.java:74-76 | With the intended guard: the collected image list is exactly the image parts' file names, in arrival order. |
| `Controller.CollectDeclarations` | src/main/java/test/musala/DronesController.java:66-73 | With the intended guard: the collected declarations are keyed by file name. A name is present exactly when some declaration part carries it, and its value comes from the last such part. |
| `Controller.LatestDeclarationWins` | src/main/java/test/musala/DronesController.java:68-70 | Of several declarations under one file name, the last one is the one that counts. |
| `Controller.Build` | src/main/java/test/musala/DronesController.java:86-101 | Completion succeeds exactly when every image's file name has a Java (UTF-16) length of three or more, was stored, and has a declaration. It then gives one medicine per image, in image order, named by the file name, with weight and code from that declaration and the stored path as image id. |
| `Controller.BuildReportsFirstFailure` | src/main/java/test/musala/DronesController.java:88-99 | A failing completion reports the first failing image. A temp-file prefix of Java length under three is checked first, then a failed write, then a missing declaration. |
| `Controller.BuildIgnoresUnmatchedDeclaration` | src/main/java/test/musala/DronesController.java:86-96 | A declaration whose file name no image carries does not affect completion. |
| `Controller.AstralFileNameIsStorable` | src/main/java/test/musala/DronesController.java:90 | A file name of two characters outside the Basic Multilingual Plane passes the three-unit prefix check, as it does in Java. |
| `Controller.AddMedicines` | src/main/java/test/musala/DronesController.java:103 | The new medicines come after the drone's existing ones, and every other field is unchanged. |
| `Controller.Complete` | src/main/java/test/musala/DronesController.java:85-104 | `onComplete`: `Build`, then the unknown-drone check, then the append. `OnComplete` is proved to perform it; `LoadEffect` and `LoadUnknownDrone` state its effect. |
| `Controller.Load` | src/main/java/test/musala/DronesController.java:42-106 | A whole request: `Collect`, then `Complete` on success. `LoadEffect` and `LoadSucceedsIff` state what it does; `RegisterMedicine` is proved to perform it. |
| `Controller.LoadEffect` | src/main/java/test/musala/DronesController.java:86-103 | With the intended guard: a successful request needs a registered drone. It appends one medicine per image part, in order, each built from that image's file name, the last declaration of that name and the stored path. The drone's state and other fields, every other drone and the key set stay unchanged. |
| `Controller.LoadSucceedsIff` | src/main/java/test/musala/DronesController.java:55-103 | With the intended guard: a request succeeds if and only if all parts are accepted, every image is stored under a prefix of Java length three or more and has a declaration, and the serial is registered. |
| `Controller.LoadUnknownDrone` | src/main/java/test/musala/DronesController.java:103 | With the intended guard: an unregistered serial fails the request with an unknown-drone error once all images are handled. |
| `Controller.DronesController.RegisterMedicine` | src/main/java/test/musala/DronesController.java:42-106 | With the intended guard: feeds the parts to a fresh subscriber and completes it. On success the registry becomes `Load`'s result. On any error it returns that error and the registry is unchanged. |
| `Controller.MedicinesSubscriber.constructor` | src/main/java/test/musala/DronesController.java:46-47 | A subscriber starts with no declarations and no images, bound to its controller and serial number. |
| `Controller.MedicinesSubscriber.OnNext` | src/main/java/test/musala/DronesController.java:55-77 | With the intended guard: the subscriber's new state is one `Step` of the fold: a declaration is filed under its file name and replaces an earlier one, an image's name is appended, and an error leaves the state as it was. |
| `Controller.MedicinesSubscriber.OnComplete` | src/main/java/test/musala/DronesController.java:85-104 | The registry becomes `Complete`'s result on success and is unchanged on error. |
| `Scenarios.LoadingScenarioFor` | src/test/java/test/musala/DronesControllerTest.java:77-95 | For any valid serial and two distinct codes of Java length three or more, the test's body layout loads both medicines in order and the drone stays IDLE. Each medicine is named by its code, and the response differs from the one the test expects. |
| `Scenarios.LoadingScenario` | src/test/java/test/musala/DronesControllerTest.java:77-95 | The same for the test's own serial and codes: both medicines load in order, named by their codes, and the drone stays IDLE. |
| `Scenarios.LoadingScenarioAsWritten` | src/main/java/test/musala/DronesController.java:56-64 | With the guard as written, the test's body layout fails at its first part, whatever the codes. |

## Findings

| source | as written | input that shows it | evidently intended | confidence | as-written member | corrected member |
|---|---|---|---|---|---|---|
| src/main/java/test/musala/DronesController.java:56-58 | the guard is `name != "medicines" \|\| name != "images" \|\| !isFile`, which is true for every part because no name equals both | a file upload named "medicines" with a valid declaration, such as the first part the loading test sends | reject a part only when it is not a file upload or its name is neither "medicines" nor "images" | high, not executed | `Controller.CollectAsWrittenFails` | `Controller.CollectSucceedsIff` |

Both guards are modelled (`Guard = AsWritten | Intended`). The classes and the lemmas about a request use
the intended guard. `Scenarios.LoadingScenarioAsWritten` shows the loading test's body fails as written.

## Code, specification and tests

Where these disagree, the model follows the code:

- Registration overwrites a drone already under the same serial number. It does not reject the duplicate.
- Declarations and images are paired by part file name, not by a code field. A medicine takes its name from
  the image's file name (DronesController.java:99). The declaration's `name` field is decoded and then
  dropped. The loading test names its parts by code but expects the declaration's name back.
  `Scenarios.LoadingScenario` shows the model's result differs from that expectation.
- Loading never changes the drone's state. The tests also expect IDLE after loading.
- There is no state machine, compare-and-swap reservation, capacity check, battery threshold, code-mismatch
  check or image-extension check in the code, so none is modelled.
- `register` and `registerMedicine` return nothing, and the controller defines no endpoint for the drone lookup
  that the tests' HTTP client calls. No endpoint in the code returns a `DroneResponse`, so the tests' assertions
  on response bodies cannot pass as written.
- Declarations with no matching image are ignored, not rejected (`BuildIgnoresUnmatchedDeclaration`).

## Left out

- HTTP routing, dependency injection and bean-validation machinery are not modelled.
- `Controller.DronesController.Register`: the annotation bounds are a precondition. The framework's rejection
  of out-of-bounds or missing fields is not modelled as an error path.
- Reactive plumbing is not modelled (back-pressure, the empty `onError`). The body is an already-collected
  sequence of parts. After `onNext` throws, no further part is processed and `onComplete` does not run.
- `Controller.DronesController.RegisterMedicine`: loads a body of any number of parts. The subscriber requests
  only ten parts and never more, so under the Reactive Streams demand rules a body of more than ten parts
  (more than five medicines in the tests' layout) never delivers its eleventh part and never reaches
  `onComplete`, and nothing is loaded. This follows from reading the code; it was not executed.
- `Controller.DronesController.RegisterMedicine`: images stored before a later failure stay stored. The temp
  files are outside the model, so this side effect is not captured.
- JSON decoding is not modelled. A declaration part carries its decoded `MedicineRequest` or `None`.
- Temp-file creation and writing are reduced to the `save` parameter and the prefix check of Java length three.
  `createTempFile` always makes a new file, but the model does not assume that `save` returns distinct paths
  for distinct images; two medicines may carry the same image id in the model.
- The thread safety of the concurrent map is not modelled. Operations are sequential.
- Application bootstrap and the HTTP client interface are not part of this model.
- Java `long` and `int` are modelled as ranged integers. Weights are only copied, never computed with, so
  wrap-around never arises.

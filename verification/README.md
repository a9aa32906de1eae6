# Sensor service core, modelled in Dafny

This project models the core of a small RPC service that manages Sensor
records (`server.go` and the in-memory repository and oracle in
`server_test.go`):

- **Data model** (`sensor_types.dfy`): `Sensor` (uuid, collection, name,
  unit, ingress, and an annotation list that may be nil), `Annotation`,
  the `SensorUpdate` request (selector and update, each possibly absent),
  the `SensorList` envelope `{Count, Sensors}` and a `Status` error with an
  `InvalidArgument` kind and an opaque storage error.
- **Canonical rendering** (`render.dfy`): `AnnotationString`, the
  loop-built `AnnotationsString` (a slice that starts with one empty string,
  then one entry per annotation, joined with `", "`, unsorted), and
  `SensorString`. A nil annotation list renders as nothing. Any other list,
  even an empty one, renders through `AnnotationsString`.
- **In-memory repository** (`test_repo.dfy`): class `TestDataRepo` with a
  `sensors` sequence field. `CreateSensor` appends. `GetSensors` returns
  everything and ignores the query. `UpdateSensors` ignores the query and
  runs five passes over the stored sensors, one per field. Each scalar field
  set in the update overwrites the stored one. A non-nil annotation list
  replaces the stored list wholesale. The whole pass is proved equal to the
  per-sensor merge `Merge`, which is specified by its own lemmas.
- **Service layer** (`server.dfy`): class `SensorServer` holding its
  repository, with the three handlers. `UpdateSensors` rejects a request
  without selector or update with `InvalidArgument` before touching the
  repository.
- **List-equality oracle** (`list_equal.dfy`): `SensorListEqual` returns
  false on different lengths. Otherwise it sorts both arrays in place by
  uuid, using code-point lexicographic order (which equals Go's byte order
  on valid UTF-8) and swaps of neighbours, then
  compares the canonical texts position by position. With distinct uuids,
  the outcome equals a reference definition (`SensorListsEqual`, built on a
  functional sort) and does not depend on the input order.
- **Scenarios** (`scenarios.dfy`): the three test functions (create, read
  all, update all annotations), each proved to end with the oracle returning
  true.

Two behaviours of the code are worth stating plainly:
- The repository ignores the query and the selector and updates every
  stored sensor (server_test.go:68-108).
- A non-nil annotation list replaces the stored one, so an empty non-nil
  list clears it (server_test.go:102-106).

## Model

| member | source | states |
|---|---|---|
| `Render.AnnotationString` | server.go:38-44 | the text of one annotation: the key tag, the key, the value tag, the value and the closing ` >` |
| `Render.AnnotationStringLayout` | server.go:38-44 | an annotation renders as `< Annotation key=` + key + ` value=` + value + ` >`; key and value sit at fixed positions |
| `Render.AnnotationStringDetermines` | server.go:38-44 | two annotations with equal-length keys render alike only if they are equal |
| `Render.RenderEach` | server.go:49-51 | the i-th rendered part is the rendering of the i-th annotation, in the original order |
| `Render.JoinFirstThenPrefixed` | server.go:54 | a non-empty join is the first part followed by every other part preceded by the separator |
| `Render.JoinedParts` | server.go:48-54 | joining a leading empty part and the n renderings with `", "` puts `", "` before every rendering |
| `Render.AnnotationsString` | server.go:46-56 | the loop builds n+1 parts (a leading empty string, then each rendering in order) and the result equals the list text |
| `Render.AnnoListShape` | server.go:46-56 | zero annotations give `<AnnoList  >`; otherwise the text begins `<AnnoList , ` followed by the joined renderings |
| `Render.AnnoListOrderMatters` | server.go:47 | the list is not sorted: the same two annotations in the other order render differently |
| `Render.SensorString` | server.go:22-36 | the text of one sensor: uuid, collection, name, unit and ingress after their tags, then the annotation field, which is empty for a nil list and the list text otherwise |
| `Render.SensorStringLayout` | server.go:22-36 | a sensor's text starts with `< Sensor uuid=` and its uuid, ends with the annotation field and ` >`, and its length is fixed by the field lengths |
| `Render.NilAndEmptyAnnotationsDiffer` | server.go:23-26 | a nil annotation list and an empty one render differently |
| `TestRepo.Merge` | server_test.go:82-106 | one stored sensor after an update: each non-empty scalar field of the update replaces the stored one, a non-nil annotation list replaces the stored list, the uuid stays |
| `TestRepo.MergeFields` | server_test.go:82-106 | a set scalar field is overwritten, an unset one is kept, a non-nil annotation list replaces the stored one, and the uuid is kept |
| `TestRepo.MergeIdempotent` | server_test.go:80-108 | applying the same update twice equals applying it once |
| `TestRepo.MergeEmptyUpdate` | server_test.go:80-108 | an update with no field set changes nothing |
| `TestRepo.MergeTwice` | server_test.go:80-108 | two successive updates equal one update with the second merged into the first |
| `TestRepo.MergeAll` | server_test.go:80-108 | after an update, the list has the same length and each position holds the merge of the sensor stored there |
| `TestRepo.MergeAllKeepsUuids` | server_test.go:80-108 | an update keeps the uuids, their number and their order |
| `TestRepo.PassesMerge` | server_test.go:82-106 | the five field passes, run one after the other, leave every stored sensor merged with the update |
| `TestRepo.TestDataRepo.constructor` | server_test.go:60-66 | the new repository holds exactly the given list |
| `TestRepo.TestDataRepo.GetSensors` | server_test.go:68-71 | returns the whole stored list, whatever the query, with no error |
| `TestRepo.TestDataRepo.CreateSensor` | server_test.go:73-76 | appends the sensor at the end, keeps earlier ones, returns it with no error |
| `TestRepo.TestDataRepo.OverwriteEach` | server_test.go:83-85 | one pass rewrites every stored sensor and changes neither their number nor their order |
| `TestRepo.TestDataRepo.UpdateSensors` | server_test.go:80-108 | the five field passes leave every stored sensor merged with the update; returns the whole list with no error |
| `Server.ListReply` | server.go:82 | the reply wraps the repository's list with `Count` equal to its length and passes the repository's error through unchanged |
| `Server.CheckUpdate` | server.go:86-90 | a request is rejected, as `InvalidArgument`, exactly when its selector or its update is missing |
| `Server.SensorServer.constructor` | server.go:66-69 | the server holds the given repository |
| `Server.SensorServer.CreateSensor` | server.go:73-77 | the sensor reaches the repository unmodified and the repository's result is returned |
| `Server.SensorServer.ReadSensors` | server.go:79-83 | returns the repository's list with its length as `Count` and no error |
| `Server.SensorServer.UpdateSensors` | server.go:85-93 | a missing selector or update gives no list, `InvalidArgument` and an unchanged repository; otherwise the repository's updated list with its length as `Count` |
| `ListEqual.UuidLess` | server_test.go:208-210 | the order of the sensor slice: lexicographic by character, a proper prefix before the longer string |
| `ListEqual.UuidLessIrreflexive` | server_test.go:208-210 | no uuid is less than itself |
| `ListEqual.UuidLessTransitive` | server_test.go:208-210 | the uuid order is transitive |
| `ListEqual.UuidLessTotal` | server_test.go:208-210 | any two different uuids are ordered one way or the other |
| `ListEqual.UuidLessAsymmetric` | server_test.go:208-210 | two uuids are never each less than the other |
| `ListEqual.UuidLeAntisymmetric` | server_test.go:208-210 | uuids not greater than each other are equal |
| `ListEqual.UuidLeTransitive` | server_test.go:208-210 | "not greater" is transitive |
| `ListEqual.PermutationKeepsDistinct` | server_test.go:220-221 | rearranging a list keeps its uuids distinct |
| `ListEqual.SortedUnique` | server_test.go:220-221 | two sorted rearrangements of the same sensors with distinct uuids are the same list |
| `ListEqual.Insert` | server_test.go:220-221 | inserting adds exactly the one sensor |
| `ListEqual.InsertSorted` | server_test.go:220-221 | inserting into a sorted list keeps it sorted |
| `ListEqual.Sort` | server_test.go:220-221 | the reference sort keeps exactly the same sensors |
| `ListEqual.SortSorted` | server_test.go:220-221 | the reference sort is ascending by uuid |
| `ListEqual.SortedIsSort` | server_test.go:220-221 | with distinct uuids, any sorted rearrangement is the reference sort |
| `ListEqual.SensorListsEqual` | server_test.go:216-228 | the reference verdict: equal lengths, and equal sensor texts at every position once both lists are sorted by uuid |
| `ListEqual.LengthsDiffer` | server_test.go:217-219 | lists of different lengths are not equal |
| `ListEqual.OrderIndependent` | server_test.go:216-228 | with distinct uuids in the first list, the verdict does not depend on the first list's order |
| `ListEqual.OrderIndependentSecond` | server_test.go:216-228 | with distinct uuids in the second list, the verdict does not depend on the second list's order |
| `ListEqual.PermutationsEqual` | server_test.go:216-228 | two rearrangements of the same sensors with distinct uuids are judged equal |
| `ListEqual.SwapStep` | server_test.go:212-214 | swapping the moving sensor with a greater left neighbour moves it one place down |
| `ListEqual.InsertedPrefixSorted` | server_test.go:220-221 | once the moving sensor stops, the prefix up to it is sorted |
| `ListEqual.Swap` | server_test.go:212-214 | exchanges two sensors and changes nothing else |
| `ListEqual.SwapDown` | server_test.go:212-214 | one swap of the insertion keeps the same sensors and moves the inserted one down |
| `ListEqual.InsertDown` | server_test.go:220-221 | moves one sensor into the sorted prefix, keeping the same sensors |
| `ListEqual.SortByUuid` | server_test.go:220-221 | sorts the array in place: the result is ascending by uuid and holds the same sensors |
| `ListEqual.SensorListEqual` | server_test.go:216-228 | false and nothing sorted on different lengths; otherwise both arrays are sorted rearrangements of their input and the result is true iff the texts agree at every index; with distinct uuids it equals `SensorListsEqual` |
| `ListEqual.CompareTexts` | server_test.go:222-227 | true iff the canonical texts agree at every index |
| `Scenarios.CreateSensorScenario` | server_test.go:110-136 | after creating fake2 in a repository seeded with fake1, reading returns both, and create reports no error |
| `Scenarios.GetAllSensorsScenario` | server_test.go:138-157 | reading the seeded repository returns the seed list with no error |
| `Scenarios.UpdateAllSensorsScenario` | server_test.go:159-200 | an annotation-only update gives the sensor that list, keeps its other fields, and reports no error |

## Left out

- Logging: the `Log` interface, the test logger and the `Printf` calls in the handlers. They only produce output.
- The `context.Context` parameters. The handlers never use them.
- The gRPC status library. Errors are the `Status` datatype. The message text of `InvalidArgument` is kept.
- The `int32` conversion of `Count`. `Count` is the list length as an unbounded integer.
- `cmd/main.go` is not part of this model. It reads flags and environment variables, opens a database connection and builds a logger.
- The `DataRepo` interface as an abstraction. The server holds the one implementation in this core, `TestDataRepo`. A failing repository's error is passed through by `ListReply`, and the handlers use it.
- Server.SensorServer.CreateSensor: states `err == None` and not "the repository's error passed through", because the repository it holds never fails.
- Server.SensorServer.ReadSensors: states `err == None` and not "the repository's error passed through", for the same reason.
- Server.SensorServer.UpdateSensors: states `err == None` on the forwarded path and not "the repository's error passed through", for the same reason.
- Pointer sharing. Sensors are values. The model does not capture the effects below, and it does not model nil sensor or annotation pointers.
  - The repository copies a slice of pointers (server_test.go:60-66), so updates also change the sensors in the caller's seed list.
  - `GetSensors` and `UpdateSensors` return the repository's own slice (server_test.go:70, 107). When `sensorListEqual` sorts its arguments in place (server_test.go:220-221), it reorders the repository's stored list.
  - In the read-all test, the expected list is the global seed list itself, so that list is sorted as well.
  - The model's repository returns a value, which the scenarios copy into fresh arrays, so neither effect happens.
  - In the source, a nil annotation element renders with an empty key and value.
- Query and selector matching. No code shown implements it, and the repository ignores both.
- The algorithm inside the library sort. Only its outcome is claimed: a rearrangement ascending by uuid. The in-place sort here inserts by swapping neighbours. With duplicate uuids the order is not pinned down, so `SensorListEqual` is then tied only to its general postcondition.
- Strings are sequences of Unicode characters. Invalid UTF-8 is not modelled, and lengths such as the one in `Render.SensorStringLayout` count characters, not bytes.
- A missing update request (nil pointer) is not a separate case. It behaves like a request with both parts absent.
- The test functions report failures through the test harness. The scenarios instead return the oracle's verdict and the error, and prove what a passing test needs.

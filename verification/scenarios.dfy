/** The service's test scenarios: a server over a repository seeded with
    one sensor, driven through its handlers, with the result judged by the
    list-equality oracle. */
module Scenarios {
  import opened SensorTypes
  import opened TestRepo
  import opened Server
  import opened ListEqual

  /** The one sensor every scenario seeds its repository with. */
  const Fake1 := Sensor("fake1", "fake-collection1", "fake-name1", "fake-unit", "", None)

  const AllSensors: seq<Sensor> := [Fake1]

  /** A fresh array holding the given sensors, as the oracle takes slices. */
  method ToArray(s: seq<Sensor>) returns (a: array<Sensor>)
    ensures fresh(a) && a[..] == s
  {
    a := new Sensor[|s|](k requires 0 <= k < |s| => s[k]);
  }

  /** Creating a second sensor and then reading with the empty query gives
      both sensors. */
  method CreateSensorScenario() returns (equal: bool, err: Option<Status>)
    ensures err == None
    ensures equal
  {
    var repo := new TestDataRepo(AllSensors);
    var server := new SensorServer(repo);
    var n := Sensor("fake2", "fake-collection2", "fake-name2", "fake-unit", "", None);
    var want := AllSensors + [n];
    var _, e := server.CreateSensor(n);
    err := e;
    var got, _ := server.ReadSensors(EmptySensor);
    var g := ToArray(got.value.sensors);
    var w := ToArray(want);
    assert DistinctUuids(want);
    equal := SensorListEqual(g, w);
  }

  /** Reading with the empty query from the seeded repository gives the seed
      list. */
  method GetAllSensorsScenario() returns (equal: bool, err: Option<Status>)
    ensures err == None
    ensures equal
  {
    var repo := new TestDataRepo(AllSensors);
    var server := new SensorServer(repo);
    var got, e := server.ReadSensors(EmptySensor);
    err := e;
    var g := ToArray(got.value.sensors);
    var w := ToArray(AllSensors);
    equal := SensorListEqual(g, w);
  }

  /** An update that sets only the annotations, with the empty selector,
      gives every sensor that annotation list and keeps all its other
      fields. */
  method UpdateAllSensorsScenario() returns (equal: bool, err: Option<Status>)
    ensures err == None
    ensures equal
  {
    var repo := new TestDataRepo(AllSensors);
    var server := new SensorServer(repo);
    var annotations := [Annotation("foo", "1 2 3")];
    var u := EmptySensor.(annotations := Some(annotations));
    var got, e := server.UpdateSensors(SensorUpdate(Some(EmptySensor), Some(u)));
    err := e;
    var want := [Sensor("fake1", "fake-collection1", "fake-name1", "fake-unit", "", Some(annotations))];
    var g := ToArray(got.value.sensors);
    var w := ToArray(want);
    equal := SensorListEqual(g, w);
  }
}

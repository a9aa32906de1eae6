/** The in-memory reference repository: a list of sensors that create
    appends to, read returns whole, and update overwrites field by field. */
module TestRepo {
  import opened SensorTypes

  /** Overwrite-if-set: the update's value when it is non-empty, otherwise
      the stored one. */
  function Pick(update: string, stored: string): string
  {
    if update != "" then update else stored
  }

  /** The canonical merge of an update template into one stored sensor: each
      scalar field that is set in the update overwrites the stored one, a
      non-nil annotation list replaces the stored list wholesale, and the
      uuid is never touched. */
  function Merge(s: Sensor, u: Sensor): Sensor
  {
    Sensor(
      s.uuid,
      Pick(u.collection, s.collection),
      Pick(u.name, s.name),
      Pick(u.unit, s.unit),
      Pick(u.ingress, s.ingress),
      if u.annotations.Some? then u.annotations else s.annotations)
  }

  /** What the merge does to each field, and that it keeps the uuid. */
  lemma MergeFields(s: Sensor, u: Sensor)
    ensures Merge(s, u).uuid == s.uuid
    ensures u.collection != "" ==> Merge(s, u).collection == u.collection
    ensures u.collection == "" ==> Merge(s, u).collection == s.collection
    ensures u.name != "" ==> Merge(s, u).name == u.name
    ensures u.name == "" ==> Merge(s, u).name == s.name
    ensures u.unit != "" ==> Merge(s, u).unit == u.unit
    ensures u.unit == "" ==> Merge(s, u).unit == s.unit
    ensures u.ingress != "" ==> Merge(s, u).ingress == u.ingress
    ensures u.ingress == "" ==> Merge(s, u).ingress == s.ingress
    ensures u.annotations.Some? ==> Merge(s, u).annotations == u.annotations
    ensures u.annotations.None? ==> Merge(s, u).annotations == s.annotations
  {
  }

  /** Applying the same update twice is the same as applying it once. */
  lemma MergeIdempotent(s: Sensor, u: Sensor)
    ensures Merge(Merge(s, u), u) == Merge(s, u)
  {
  }

  /** An update with no field set leaves a sensor as it was. */
  lemma MergeEmptyUpdate(s: Sensor, u: Sensor)
    requires u.collection == "" && u.name == "" && u.unit == "" && u.ingress == ""
    requires u.annotations.None?
    ensures Merge(s, u) == s
  {
  }

  /** Two successive updates act as one: the first update template with the
      second merged into it. */
  lemma MergeTwice(s: Sensor, u: Sensor, v: Sensor)
    ensures Merge(Merge(s, u), v) == Merge(s, Merge(u, v))
  {
  }

  /** The whole stored list after an update: every sensor merged, none added,
      dropped or moved. */
  function MergeAll(ss: seq<Sensor>, u: Sensor): (r: seq<Sensor>)
    ensures |r| == |ss|
    ensures forall k :: 0 <= k < |ss| ==> r[k] == Merge(ss[k], u)
  {
    if ss == [] then [] else [Merge(ss[0], u)] + MergeAll(ss[1..], u)
  }

  /** The uuids, in stored order, are the same before and after an update. */
  lemma {:induction false} MergeAllKeepsUuids(ss: seq<Sensor>, u: Sensor)
    ensures Uuids(MergeAll(ss, u)) == Uuids(ss)
  {
    if ss != [] {
      MergeAllKeepsUuids(ss[1..], u);
      assert MergeAll(ss, u)[1..] == MergeAll(ss[1..], u);
    }
  }

  /** The uuid of every sensor, in order. */
  function Uuids(ss: seq<Sensor>): (r: seq<string>)
    ensures |r| == |ss|
    ensures forall k :: 0 <= k < |ss| ==> r[k] == ss[k].uuid
  {
    if ss == [] then [] else [ss[0].uuid] + Uuids(ss[1..])
  }

  /** One pass over the stored list: every sensor rewritten by f, none
      added, dropped or moved. */
  ghost predicate Pass(before: seq<Sensor>, after: seq<Sensor>, f: Sensor -> Sensor)
  {
    |after| == |before| && forall k :: 0 <= k < |before| ==> after[k] == f(before[k])
  }

  /** The five field passes, one after the other, merge the update into
      every stored sensor. */
  lemma PassesMerge(s0: seq<Sensor>, s1: seq<Sensor>, s2: seq<Sensor>, s3: seq<Sensor>,
                    s4: seq<Sensor>, s5: seq<Sensor>, u: Sensor)
    requires Pass(s0, s1, (s: Sensor) => s.(collection := Pick(u.collection, s.collection)))
    requires Pass(s1, s2, (s: Sensor) => s.(name := Pick(u.name, s.name)))
    requires Pass(s2, s3, (s: Sensor) => s.(unit := Pick(u.unit, s.unit)))
    requires Pass(s3, s4, (s: Sensor) => s.(ingress := Pick(u.ingress, s.ingress)))
    requires Pass(s4, s5, (s: Sensor) => s.(annotations := if u.annotations.Some? then u.annotations else s.annotations))
    ensures s5 == MergeAll(s0, u)
  {
    forall k | 0 <= k < |s0|
      ensures s5[k] == Merge(s0[k], u)
    {
      assert s1[k] == s0[k].(collection := Pick(u.collection, s0[k].collection));
      assert s2[k] == s1[k].(name := Pick(u.name, s1[k].name));
      assert s3[k] == s2[k].(unit := Pick(u.unit, s2[k].unit));
      assert s4[k] == s3[k].(ingress := Pick(u.ingress, s3[k].ingress));
    }
  }

  /** Reference repository holding its sensors in a list. */
  class TestDataRepo {
    var sensors: seq<Sensor>

    /** Builds a repository holding its own copy of the given list. */
    constructor (data: seq<Sensor>)
      ensures sensors == data
    {
      sensors := data;
    }

    /** Returns every stored sensor, whatever the query, and no error. */
    method GetSensors(query: Sensor) returns (l: seq<Sensor>, err: Option<Status>)
      ensures l == sensors
      ensures err == None
    {
      l, err := sensors, None;
    }

    /** Appends the sensor at the end and returns it with no error. */
    method CreateSensor(s: Sensor) returns (created: Sensor, err: Option<Status>)
      modifies this
      ensures sensors == old(sensors) + [s]
      ensures created == s && err == None
    {
      sensors := sensors + [s];
      created, err := s, None;
    }

    /** Rewrites every stored sensor with the given function, one at a time. */
    method OverwriteEach(f: Sensor -> Sensor)
      modifies this
      ensures Pass(old(sensors), sensors, f)
    {
      for i := 0 to |sensors|
        invariant |sensors| == |old(sensors)|
        invariant forall k :: 0 <= k < i ==> sensors[k] == f(old(sensors)[k])
        invariant forall k :: i <= k < |sensors| ==> sensors[k] == old(sensors)[k]
      {
        sensors := sensors[i := f(sensors[i])];
      }
    }

    /** Ignores the query and merges the update into every stored sensor,
        one field at a time, then returns the whole list and no error. */
    method UpdateSensors(query: Sensor, update: Sensor) returns (l: seq<Sensor>, err: Option<Status>)
      modifies this
      ensures sensors == MergeAll(old(sensors), update)
      ensures l == sensors && err == None
    {
      ghost var s0 := sensors;
      if update.collection != "" {
        OverwriteEach((s: Sensor) => s.(collection := update.collection));
      }
      ghost var s1 := sensors;
      assert Pass(s0, s1, (s: Sensor) => s.(collection := Pick(update.collection, s.collection)));
      if update.name != "" {
        OverwriteEach((s: Sensor) => s.(name := update.name));
      }
      ghost var s2 := sensors;
      assert Pass(s1, s2, (s: Sensor) => s.(name := Pick(update.name, s.name)));
      if update.unit != "" {
        OverwriteEach((s: Sensor) => s.(unit := update.unit));
      }
      ghost var s3 := sensors;
      assert Pass(s2, s3, (s: Sensor) => s.(unit := Pick(update.unit, s.unit)));
      if update.ingress != "" {
        OverwriteEach((s: Sensor) => s.(ingress := update.ingress));
      }
      ghost var s4 := sensors;
      assert Pass(s3, s4, (s: Sensor) => s.(ingress := Pick(update.ingress, s.ingress)));
      if update.annotations.Some? {
        OverwriteEach((s: Sensor) => s.(annotations := update.annotations));
      }
      assert Pass(s4, sensors,
        (s: Sensor) => s.(annotations := if update.annotations.Some? then update.annotations else s.annotations));
      PassesMerge(s0, s1, s2, s3, s4, sensors, update);
      l, err := sensors, None;
    }
  }
}

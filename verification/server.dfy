/** The service layer: three handlers that forward to the sensor repository
    held by the server and shape its results for the caller. */
module Server {
  import opened SensorTypes
  import opened TestRepo

  /** The reply of the read and update handlers to a repository result,
      whatever repository produced it: the list in an envelope and the
      repository's error passed through unchanged. */
  function ListReply(l: seq<Sensor>, err: Option<Status>): (r: (Option<SensorList>, Option<Status>))
    ensures r.0.Some? && r.0.value.sensors == l && r.0.value.count == |l|
    ensures r.1 == err
  {
    (Some(SensorList(|l|, l)), err)
  }

  const UpdateNotPopulated := "selector and update must be populated"

  /** Checks an update request before any storage is touched: both the
      selector and the update must be present; otherwise the request is an
      invalid argument. */
  function CheckUpdate(u: SensorUpdate): (r: Option<Status>)
    ensures r.None? <==> u.selector.Some? && u.update.Some?
    ensures r.Some? ==> r.value.InvalidArgument?
  {
    if u.selector.None? || u.update.None? then Some(InvalidArgument(UpdateNotPopulated)) else None
  }

  /** The sensor service, holding the repository it forwards to. */
  class SensorServer {
    const data: TestDataRepo

    constructor (data: TestDataRepo)
      ensures this.data == data
    {
      this.data := data;
    }

    /** Forwards the sensor unchanged to the repository and returns what the
        repository returned. */
    method CreateSensor(n: Sensor) returns (created: Sensor, err: Option<Status>)
      modifies data
      ensures data.sensors == old(data.sensors) + [n]
      ensures created == n && err == None
    {
      created, err := data.CreateSensor(n);
    }

    /** Forwards the query to the repository and wraps the list it returns. */
    method ReadSensors(q: Sensor) returns (r: Option<SensorList>, err: Option<Status>)
      ensures r.Some? && r.value.sensors == data.sensors && r.value.count == |data.sensors|
      ensures err == None
    {
      var l, e := data.GetSensors(q);
      r, err := ListReply(l, e).0, ListReply(l, e).1;
    }

    /** Rejects a request without selector or update, leaving the repository
        untouched; otherwise forwards both to the repository and wraps the
        list it returns. */
    method UpdateSensors(u: SensorUpdate) returns (r: Option<SensorList>, err: Option<Status>)
      modifies data
      ensures CheckUpdate(u).Some? ==>
        r.None? && err == CheckUpdate(u) && data.sensors == old(data.sensors)
      ensures CheckUpdate(u).None? ==>
        data.sensors == MergeAll(old(data.sensors), u.update.value)
        && r.Some? && r.value.sensors == data.sensors && r.value.count == |data.sensors|
        && err == None
    {
      var invalid := CheckUpdate(u);
      if invalid.Some? {
        return None, invalid;
      }
      var updated, e := data.UpdateSensors(u.selector.value, u.update.value);
      r, err := ListReply(updated, e).0, ListReply(updated, e).1;
    }
  }
}

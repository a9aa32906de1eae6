/** The records the sensor service exchanges: sensors, their annotations,
    the update request and the list envelope, plus the error kinds the
    service layer reports. */
module SensorTypes {

  datatype Option<+T> = None | Some(value: T)

  /** A key/value label attached to a sensor. */
  datatype Annotation = Annotation(key: string, value: string)

  /** A sensor record. An empty string means "field not set". The annotation
      list distinguishes a nil list (None) from an empty one (Some([])),
      because the canonical rendering tells them apart. */
  datatype Sensor = Sensor(
    uuid: string,
    collection: string,
    name: string,
    unit: string,
    ingress: string,
    annotations: Option<seq<Annotation>>)

  /** The sensor with every field unset, used as the "match all" query. */
  const EmptySensor := Sensor("", "", "", "", "", None)

  /** A bulk-update request: a selector template and an update template,
      either of which may be absent. A missing request is the same as one
      with both parts absent. */
  datatype SensorUpdate = SensorUpdate(selector: Option<Sensor>, update: Option<Sensor>)

  /** The response envelope of the read and update calls. */
  datatype SensorList = SensorList(count: nat, sensors: seq<Sensor>)

  /** Errors surfaced by the service: the one the service layer classifies
      itself, and an opaque error reported by the storage collaborator. */
  datatype Status = InvalidArgument(message: string) | StoreError(detail: string)
}

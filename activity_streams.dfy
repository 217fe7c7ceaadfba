/**
 * The parts of an inbound ActivityStreams 2.0 message that the inbox reads,
 * in the shape the JSON layer leaves them. Deserialising JSON into the typed
 * activity and object structs is foreign code; where that step can fail, its
 * verdict is carried as the boolean `typed`.
 */
module ActivityStreams {
  import opened Wrappers

  /**
   * The object properties the inbox reads. Each is None when the property is
   * absent or is not a JSON string (the `*_string()` accessors fail on both).
   */
  datatype ObjectProps = ObjectProps(
    kind: Option<string>,       // `type`
    id: Option<string>,
    name: Option<string>,
    content: Option<string>,
    summary: Option<string>,
    url: Option<string>,
    inReplyTo: Option<string>)

  /** A JSON property that holds either a bare IRI or an embedded object. */
  datatype Value =
    | Link(iri: string)
      // `typed`: the deserialiser accepts the object as the struct the inbox asks for
    | Embedded(props: ObjectProps, typed: bool)
      // absent, null, a number, a boolean or an array
    | Other

  /** An untyped inbound activity: its own properties, `actor` and `object`. */
  datatype Activity = Activity(props: ObjectProps, actor: Value, obj: Value, typed: bool)

  /** `v.as_str()`: the IRI when the value is a JSON string. */
  function AsStr(v: Value): Option<string> {
    match v
    case Link(iri) => Some(iri)
    case _ => None
  }

  /** `v["type"].as_str()`: the `type` of an embedded object. */
  function TypeOf(v: Value): Option<string> {
    match v
    case Embedded(props, _) => props.kind
    case _ => None
  }

  /** `object_object::<T>()` and `actor_object::<T>()`: the embedded object, when it decodes. */
  function AsObject(v: Value): Option<ObjectProps> {
    match v
    case Embedded(props, typed) => if typed then Some(props) else None
    case _ => None
  }
}

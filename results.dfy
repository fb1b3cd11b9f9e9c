/** Outcomes of the metadata store's operations: the Java code reports a
    missing base name or a mismatched instrument by throwing
    IllegalArgumentException or failing a null check; here they are values. */
module Results {

  /** Why a finalize or removal call failed. */
  datatype Error =
    | MissingMetricName                 // the `sf_metric` tag is absent
    | AlreadyRegistered(name: string)   // the registry already holds a metric under `name`
    | WrongType(name: string)           // the metric under `name` is not of the builder's kind
    | DifferentTags(name: string)       // the metric under `name` carries different metadata

  datatype Result<T> = Ok(value: T) | Err(error: Error)

  datatype Option<T> = None | Some(value: T)
}

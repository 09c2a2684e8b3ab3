/** The status codes returned by the load-time hooks (onAddedDirty, onAddedClean, import). */
module Status {
  datatype StatusCode = Ok | MissingObject | InvalidObject | FailedInversion
}

/** Option, Result and the error values shared by the whole model. */
module Wrappers {

  datatype Option<+T> = None | Some(value: T)

  /** The errors the core produces or passes through. Errors raised by the
      transport, the JSON decoder or the frame conversion are opaque messages. */
  datatype Error =
    | InvalidOrganizationSlug          // ErrorInvalidOrganizationSlug
    | UnknownQueryType                 // ErrorUnknownQueryType
    | InvalidTeamSlug                  // errors.New("invalid team slug")
    | DecodeFailure(message: string)   // json.Unmarshal
    | FetchFailure(message: string)    // Fetch / FetchWithPagination
    | ConversionFailure(message: string) // frame conversion
    | InstanceFailure(message: string) // getDatasourceInstance

  datatype Result<+T> = Ok(value: T) | Err(error: Error)
}

/** The outcomes a REST handler reports, with the HTTP status each one
    sends. */
module Http {

  /** Which lookup failed, as the 404 message names it. */
  datatype Missing = VideoMissing | CommentMissing | ChannelMissing

  datatype Response<+T> =
    | Ok(body: T)           // 200 with a JSON body
    | Created(body: T)      // 201 with a JSON body
    | BadRequest            // 400: a required input is missing
    | NotFound(what: Missing)
    | ServerError           // 500: the save was refused (a validation error)
  {
    function Status(): nat {
      match this
      case Ok(_) => 200
      case Created(_) => 201
      case BadRequest => 400
      case NotFound(_) => 404
      case ServerError => 500
    }

    predicate Succeeded() {
      Ok? || Created?
    }
  }
}

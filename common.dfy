/** Values shared by the backend and frontend models: optional values,
    the outcome of a service call, and the errors the services raise. */
module Common {

  datatype Option<+T> = None | Some(value: T) {
    function GetOr(default: T): T {
      match this
      case Some(v) => v
      case None => default
    }
  }

  /** The exceptions the NestJS services throw, one constructor per distinct
      condition, with the data their messages carry. */
  datatype Error =
    | NotFound(id: int)                       // NotFoundException for a missing product or order
    | NotOwner                                // ForbiddenException: the caller is not the product's seller
    | MissingRole                             // ForbiddenException: request user or role missing
    | RoleNotAllowed(required: seq<string>)   // ForbiddenException: role not among the required ones
    | InsufficientStock(productName: string, available: int, requested: int)  // BadRequestException in order creation
    | NegativeStock                           // BadRequestException 'Stock insuffisant' in a stock adjustment

  datatype Result<+T> = Ok(value: T) | Err(error: Error)
}

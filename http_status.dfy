/** The HTTP outcomes the controllers raise through ResponseStatusException. */
module HttpStatus {

  datatype Status = BadRequest | Unauthorized | Forbidden | NotAcceptable
}

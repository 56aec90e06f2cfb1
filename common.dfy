/** Shared value types used by every module of the storefront model. */
module Common {

  /** A value that may be absent: JavaScript's `undefined`/`null`, or a Mongo lookup that found nothing. */
  datatype Option<T> = None | Some(value: T) {
    function GetOr(default: T): T {
      match this
      case Some(v) => v
      case None => default
    }
  }

  /** The outcome of an operation that either produces a value or reports an error. */
  datatype Result<T, E> = Ok(value: T) | Err(error: E)

  /** The HTTP statuses the handlers answer with. */
  datatype HttpStatus = Success | BadRequest | NotFound {
    function Code(): int {
      match this
      case Success => 200
      case BadRequest => 400
      case NotFound => 404
    }
  }

  function Min(a: int, b: int): int { if a <= b then a else b }

  /** Identifiers are opaque strings (Mongo ObjectIds rendered as hex, client session tokens). */
  type ProductId = string
  type SessionId = string

  /** A cache tag of the client's API layer, `{ type, id }`; a list tag has the id "LIST". */
  datatype Tag = Tag(tagType: string, id: string)

  const ListId: string := "LIST"
}

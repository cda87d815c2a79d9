/** Value types shared by the services and components: the records the API
    returns (users, books, page metadata, response envelopes), HTTP outcomes
    and errors, and the requests and notifications the code issues. */
module Models {

  /** `T | undefined` / `T | null` of the TypeScript code. */
  datatype Option<+T> = None | Some(value: T)

  datatype Role = Admin | Customer

  /** A user record as the server returns it (`IUser`). */
  datatype User = User(id: int, username: string, password: string, role: Role)

  /** The credentials `LoginComponent.login` hands to `AuthService.login`. */
  datatype Credentials = Credentials(username: string, password: string)

  /** A book record. Its fields other than the identifier are not used by
      the modelled code and are kept as an opaque key/value record. */
  datatype Book = Book(id: int, fields: map<string, string>)

  /** Pagination metadata (`IMeta`); JavaScript numbers are modelled as
      integers. */
  datatype Meta = Meta(currentPage: int, itemsPerPage: int, message: string, status: int, totalItems: int)

  /** The response envelope `{ data, meta? }` (`IResponse<IBook[]>`). */
  datatype Response = Response(data: seq<Book>, meta: Option<Meta>)

  /** The body of a failed request as far as the code looks into it:
      `error.error.meta.message`, each level optional. */
  datatype ErrorMeta = ErrorMeta(message: Option<string>)
  datatype ErrorBody = ErrorBody(meta: Option<ErrorMeta>)
  datatype HttpError = HttpError(status: int, body: Option<ErrorBody>)

  /** How an HTTP request eventually settles: one value, or one error. */
  datatype HttpResult<T> = Ok(body: T) | Failed(error: HttpError)

  datatype Verb = Get | Post | Put | Delete

  /** A request handed to the HTTP client: verb, URL and optional body. */
  datatype Request<B> = Request(verb: Verb, url: string, body: Option<B>)

  datatype Severity = Success | Error

  /** A toast notification: severity, message, title. */
  datatype Toast = Toast(severity: Severity, message: string, title: string)
}

/** The parts of an HTTP exchange the handlers read and write. */
module Http {
  import opened Common

  /** A response body: a page of records, one record, or a message. */
  datatype Body<T> =
    | Page(items: seq<(Id, T)>, totalPages: Option<int>)  // totalPages None: JSON null
    | Saved(id: Id, doc: T)
    | Message(message: string)
    | Error(error: string)
    | Plain(text: string)  // a plain-text body sent with `end`

  /** Status, the `Allow` header ([] when not set) and body. */
  datatype Response<T> = Response(status: int, allow: seq<string>, body: Body<T>)

  const AllowedMethods: seq<string> := ["GET", "POST", "PUT", "DELETE"]

  function Json<T>(status: int, body: Body<T>): Response<T> {
    Response(status, [], body)
  }

  /** The reply to a method neither handler supports. */
  function MethodNotAllowed<T>(verb: string): (r: Response<T>)
    ensures r.status == 405
    ensures r.allow == ["GET", "POST", "PUT", "DELETE"]
    ensures r.body == Plain("Method " + verb + " Not Allowed")
  {
    Response(405, AllowedMethods, Plain("Method " + verb + " Not Allowed"))
  }
}

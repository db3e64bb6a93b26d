/**
  What a request handler can leave behind: a gin JSON response, a gRPC status,
  or no response at all (Go's `log.Fatalln` exits the process before anything
  is written; a panic unwinds the handler, and what the server does then
  depends on a recovery middleware outside this model).
*/
module Http {

  const StatusOK: int := 200
  const StatusCreated: int := 201
  const StatusBadRequest: int := 400
  const StatusForbidden: int := 403
  const StatusInternalServerError: int := 500

  /** The response a gin handler writes. */
  datatype Reply<+T> =
    | Message(status: int, message: string)   // gin.H{"message": ...}
    | Data(status: int, message: string, data: T)  // a response carrying a payload
    | Exit                                     // log.Fatalln: the process ends, nothing is sent
    | Panicked                                 // an index out of range in the handler

  /** gRPC status codes used by the services. */
  datatype Code = InvalidArgument | Unauthenticated | PermissionDenied | Internal

  /** The outcome of a unary gRPC call as the server produces it. */
  datatype RpcReply<+T> =
    | RpcOk(value: T)
    | RpcError(code: Code, message: string)
    | Crashed                                  // log.Fatalln or an unrecovered panic

  /** Transport metadata of an incoming call: header name to its values. */
  type Metadata = map<string, seq<string>>

  /** `md[name]` on a Go `metadata.MD`: a missing header reads as an empty list. */
  function Values(md: Metadata, name: string): (vs: seq<string>)
    ensures name !in md ==> vs == []
  {
    if name in md then md[name] else []
  }
}

/** The exception filter for bad requests (failed body validation): it
    answers with the exception's own status code and an error envelope
    carrying one message. */
module Filters {
  import opened Wrappers
  import opened Todos

  /** The `message` property of the exception's response object: a single
      text, a list of texts (one per failed validation rule), or missing. */
  datatype ExceptionMessage = Text(text: string) | List(texts: seq<string>) | Missing

  datatype BadRequestException = BadRequestException(statusCode: int, message: ExceptionMessage)

  /** `{ data: null, status: false, message }`; `message` is `None` when it
      is undefined and so left out of the JSON. */
  datatype ErrorBody = ErrorBody(data: Option<Todo>, status: bool, message: Option<string>)

  /** What is written to the HTTP response: status code and JSON body. */
  datatype FilterResponse = FilterResponse(code: int, body: ErrorBody)

  /** Every message the exception carries, in order. */
  function Messages(m: ExceptionMessage): (r: seq<string>)
  {
    match m
    case Text(s) => [s]
    case List(texts) => texts
    case Missing => []
  }

  /** `ValidationFilter.catch`: the first message of a list, a single
      message as it is. */
  function Catch(exception: BadRequestException): (r: FilterResponse)
    ensures r.code == exception.statusCode
    ensures r.body.data == None && !r.body.status
    ensures exception.message.List? && exception.message.texts != [] ==> r.body.message == Some(exception.message.texts[0])
    ensures exception.message.Text? ==> r.body.message == Some(exception.message.text)
  {
    var message :=
      match exception.message
      case List(texts) => if texts != [] then Some(texts[0]) else None
      case Text(s) => Some(s)
      case Missing => None;
    FilterResponse(exception.statusCode, ErrorBody(None, false, message))
  }

  /** The reported message is the first of the exception's messages, and
      there is one exactly when the exception carries any. */
  lemma CatchReportsFirstMessage(exception: BadRequestException)
    ensures Catch(exception).body.message.Some? <==> Messages(exception.message) != []
    ensures Messages(exception.message) != [] ==> Catch(exception).body.message == Some(Messages(exception.message)[0])
  {
  }
}

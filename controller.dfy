/** The HTTP endpoints: each calls the service inside a try/catch and wraps
    the outcome in the `{ data, status, message }` envelope. */
module Controller {
  import opened Wrappers
  import opened Todos
  import opened Service

  /** The uniform response body `{ data, status, message }`. */
  datatype Envelope<T> = Envelope(data: T, status: bool, message: string)

  const ListSucceeded := "berhasil mendapatkan data"
  const CreateSucceeded := "berhasil menambahkan data"
  const ToggleSucceeded := "berhasil mengubah data"
  /** The one failure text every endpoint uses, whatever was thrown. */
  const GenericFailure := "terjadi kesalahan"

  /** GET /todos: the list on success, an empty list (not null) on failure. */
  function ListReply(outcome: Result<seq<Todo>, ServiceError>): (e: Envelope<seq<Todo>>)
    ensures e.status <==> outcome.Success?
    ensures outcome.Success? ==> e.data == outcome.value && e.message == ListSucceeded
    ensures outcome.Failure? ==> e.data == [] && e.message == GenericFailure
  {
    match outcome
    case Success(items) => Envelope(items, true, ListSucceeded)
    case Failure(_) => Envelope([], false, GenericFailure)
  }

  /** POST /todos: the created item on success, null on failure. */
  function CreateReply(outcome: Result<Todo, ServiceError>): (e: Envelope<Option<Todo>>)
    ensures e.status <==> outcome.Success?
    ensures e.status <==> e.data.Some?
    ensures outcome.Success? ==> e.data == Some(outcome.value) && e.message == CreateSucceeded
    ensures outcome.Failure? ==> e.message == GenericFailure
  {
    match outcome
    case Success(t) => Envelope(Some(t), true, CreateSucceeded)
    case Failure(_) => Envelope(None, false, GenericFailure)
  }

  /** PATCH /todos/:id: the updated item on success, null on failure. */
  function ToggleReply(outcome: Result<Todo, ServiceError>): (e: Envelope<Option<Todo>>)
    ensures e.status <==> outcome.Success?
    ensures e.status <==> e.data.Some?
    ensures outcome.Success? ==> e.data == Some(outcome.value) && e.message == ToggleSucceeded
    ensures outcome.Failure? ==> e.message == GenericFailure
  {
    match outcome
    case Success(t) => Envelope(Some(t), true, ToggleSucceeded)
    case Failure(_) => Envelope(None, false, GenericFailure)
  }

  /** No failure envelope tells one exception from another: in particular
      the not-found text never reaches the caller. */
  lemma FailuresIndistinguishable(e1: ServiceError, e2: ServiceError)
    ensures ListReply(Failure(e1)) == ListReply(Failure(e2))
    ensures CreateReply(Failure(e1)) == CreateReply(Failure(e2))
    ensures ToggleReply(Failure(e1)) == ToggleReply(Failure(e2))
  {
  }

  class TodosController {
    const todosService: TodosService

    constructor (todosService: TodosService)
      ensures this.todosService == todosService
    {
      this.todosService := todosService;
    }

    /** `findAll`: the service never throws here, so the reply always
        succeeds and carries exactly what the service lists. */
    method FindAll(search: Option<string>) returns (e: Envelope<seq<Todo>>)
      ensures e.status && e.message == ListSucceeded
      ensures e.data == todosService.FindAll(search)
      ensures search.None? || search == Some("") ==> e.data == todosService.todos
    {
      var data := todosService.FindAll(search);
      e := ListReply(Success(data));
    }

    /** `create`: the new item, appended to the store, in a success reply. */
    method Create(id: string, title: string) returns (e: Envelope<Option<Todo>>)
      requires todosService.Valid()
      requires !HasId(todosService.todos, id)
      modifies todosService
      ensures todosService.Valid()
      ensures todosService.todos == old(todosService.todos) + [Todo(id, title, false)]
      ensures e == Envelope(Some(Todo(id, title, false)), true, CreateSucceeded)
    {
      var data := todosService.Create(id, title);
      e := CreateReply(Success(data));
    }

    /** `toggle`: a success reply with the flipped item when the id is in
        the store; otherwise the not-found exception is caught and turned
        into the generic failure reply, and the store is untouched. */
    method Toggle(id: string) returns (e: Envelope<Option<Todo>>)
      requires todosService.Valid()
      modifies todosService
      ensures todosService.Valid()
      ensures todosService.todos == Toggled(old(todosService.todos), id)
      ensures e.status <==> HasId(old(todosService.todos), id)
      ensures !e.status ==> e == Envelope(None, false, GenericFailure) && todosService.todos == old(todosService.todos)
      ensures e.status ==> e.message == ToggleSucceeded
      ensures e.status ==> e.data == Some(Flip(old(todosService.todos)[FirstIndexOf(old(todosService.todos), id).value]))
    {
      var r := todosService.Toggle(id);
      e := ToggleReply(r);
    }
  }
}

/** The frontend's state: the cached list, the error banner, the loading
    flag and the two text inputs, with the three handlers that change them.
    Each handler is one atomic transition; the server's answer is an input. */
module Client {
  import opened Wrappers
  import opened Todos
  import opened Service
  import opened Controller

  /** How a request ends: a reply in the envelope, or an exception thrown
      by the HTTP client (no connection, or a non-2xx status), carrying the
      `message` of the error response's body when there is one. */
  datatype Response<T> = Received(reply: Envelope<T>) | TransportError(responseMessage: Option<string>)

  const FetchFailed := "Gagal mengambil data dari server"
  const AddFailed := "Gagal menambahkan data"
  const ToggleFailed := "Gagal mengupdate status"

  // ---------------------------------------------------------------------
  // `String.prototype.trim`

  /** The code points `trim` removes: ECMAScript's WhiteSpace and
      LineTerminator characters. */
  predicate IsTrimmable(c: char)
  {
    || c == '\U{0009}' || c == '\U{000A}' || c == '\U{000B}' || c == '\U{000C}'
    || c == '\U{000D}' || c == '\U{0020}' || c == '\U{00A0}' || c == '\U{1680}'
    || ('\U{2000}' <= c <= '\U{200A}')
    || c == '\U{2028}' || c == '\U{2029}' || c == '\U{202F}' || c == '\U{205F}'
    || c == '\U{3000}' || c == '\U{FEFF}'
  }

  /** Nothing but whitespace (or nothing at all). */
  predicate IsBlank(s: string)
  {
    forall i :: 0 <= i < |s| ==> IsTrimmable(s[i])
  }

  /** `s` without its leading whitespace: the longest whitespace prefix is
      dropped and the rest kept as it was. */
  function TrimStart(s: string): (r: string)
    ensures |r| <= |s| && r == s[|s| - |r|..]
    ensures forall i :: 0 <= i < |s| - |r| ==> IsTrimmable(s[i])
    ensures r != [] ==> !IsTrimmable(r[0])
  {
    if s != [] && IsTrimmable(s[0]) then TrimStart(s[1..]) else s
  }

  /** `s` without its trailing whitespace: the longest whitespace suffix is
      dropped and the rest kept as it was. */
  function TrimEnd(s: string): (r: string)
    ensures |r| <= |s| && r == s[..|r|]
    ensures forall i :: |r| <= i < |s| ==> IsTrimmable(s[i])
    ensures r != [] ==> !IsTrimmable(r[|r| - 1])
  {
    if s != [] && IsTrimmable(s[|s| - 1]) then TrimEnd(s[..|s| - 1]) else s
  }

  /** `s.trim()`: no longer than `s`, and neither starting nor ending with
      whitespace (`TrimIsSlice` places it inside `s`). */
  function Trim(s: string): (r: string)
    ensures |r| <= |s|
    ensures r != [] ==> !IsTrimmable(r[0]) && !IsTrimmable(r[|r| - 1])
  {
    var front := TrimStart(s);
    var r := TrimEnd(front);
    assert r != [] ==> r[0] == front[0];
    r
  }

  /** `s.trim()` is the slice of `s` that starts at offset `k`, with only
      whitespace before and after it. */
  lemma TrimIsSlice(s: string) returns (k: nat)
    ensures k + |Trim(s)| <= |s| && Trim(s) == s[k..k + |Trim(s)|]
    ensures IsBlank(s[..k]) && IsBlank(s[k + |Trim(s)|..])
  {
    var front := TrimStart(s);
    var r := TrimEnd(front);
    k := |s| - |front|;
    PrefixOfSuffix(s, front, r, k);
    BlankAround(s, front, r, k);
  }

  /** A prefix of the suffix of `s` at `k` is the slice of `s` at `k`. */
  lemma PrefixOfSuffix(s: string, front: string, r: string, k: nat)
    requires k <= |s| && front == s[k..] && |r| <= |front| && r == front[..|r|]
    ensures k + |r| <= |s| && r == s[k..k + |r|]
  {
  }

  /** Whitespace before offset `k` and after a prefix `r` of the rest leaves
      blank margins around `r`. */
  lemma BlankAround(s: string, front: string, r: string, k: nat)
    requires k <= |s| && front == s[k..] && |r| <= |front|
    requires forall i :: 0 <= i < k ==> IsTrimmable(s[i])
    requires forall i :: |r| <= i < |front| ==> IsTrimmable(front[i])
    ensures IsBlank(s[..k]) && IsBlank(s[k + |r|..])
  {
  }

  lemma TrimStartEmpty(s: string)
    ensures TrimStart(s) == [] <==> IsBlank(s)
    ensures TrimStart(s) != [] ==> !IsTrimmable(TrimStart(s)[0])
  {
  }

  lemma TrimEndEmpty(s: string)
    ensures TrimEnd(s) == [] <==> IsBlank(s)
  {
  }

  /** `!s.trim()`: trimming leaves nothing exactly when the text is blank. */
  lemma TrimEmptyIffBlank(s: string)
    ensures Trim(s) == [] <==> IsBlank(s)
  {
  }

  // ---------------------------------------------------------------------
  // Pure parts of the handlers

  /** `err.response?.data?.message || 'Gagal menambahkan data'`: the server's
      message unless it is missing or empty. */
  function AddFailureMessage(responseMessage: Option<string>): (r: string)
    ensures r != ""
    ensures responseMessage.Some? && responseMessage.value != "" ==> r == responseMessage.value
    ensures responseMessage.None? || responseMessage == Some("") ==> r == AddFailed
  {
    match responseMessage
    case Some(m) => if m != "" then m else AddFailed
    case None => AddFailed
  }

  /** `todos.map(t => t.id === id ? { ...t, completed: !t.completed } : t)`. */
  function FlipMatching(items: seq<Todo>, id: string): (r: seq<Todo>)
    ensures |r| == |items|
    ensures forall i :: 0 <= i < |items| ==> r[i].id == items[i].id && r[i].title == items[i].title
    ensures forall i :: 0 <= i < |items| ==> (r[i].completed != items[i].completed <==> items[i].id == id)
  {
    seq(|items|, i requires 0 <= i < |items| => if items[i].id == id then Flip(items[i]) else items[i])
  }

  /** Two optimistic flips of the same id cancel out. */
  lemma FlipMatchingTwice(items: seq<Todo>, id: string)
    ensures FlipMatching(FlipMatching(items, id), id) == items
  {
  }

  /** With unique ids the client's optimistic list is exactly the store the
      server holds after the same toggle (an unknown id changes neither). */
  lemma FlipMatchingAgreesWithServer(items: seq<Todo>, id: string)
    requires UniqueIds(items)
    ensures FlipMatching(items, id) == Toggled(items, id)
  {
  }

  /** The toggle request was confirmed: a reply with `status` true. */
  predicate ToggleConfirmed(outcome: Response<Option<Todo>>)
  {
    outcome.Received? && outcome.reply.status
  }

  class App {
    var todos: seq<Todo>
    var searchTerm: string
    var newTodoTitle: string
    var loading: bool
    /** `None` is `null`: no banner. */
    var error: Option<string>

    constructor ()
      ensures todos == [] && searchTerm == "" && newTodoTitle == ""
      ensures !loading && error == None
    {
      todos, searchTerm, newTodoTitle := [], "", "";
      loading, error := false, None;
    }

    /** `filteredTodos`: what the table shows, the items whose title matches
        the search term in their cached order; an empty term shows all. */
    function FilteredTodos(): (r: seq<Todo>)
      reads this
      ensures r == Filter(todos, searchTerm)
      ensures forall t :: t in r <==> t in todos && Matches(t.title, searchTerm)
      ensures searchTerm == "" ==> r == todos
    {
      FilterMembership(todos, searchTerm);
      FilterEmptyTerm(todos);
      Filter(todos, searchTerm)
    }

    /** `fetchTodos`: clear the error, load the list; a refused reply keeps
        the cached list and shows the server's message, a transport error
        shows the fixed fetch message; loading ends false. */
    method FetchTodos(outcome: Response<seq<Todo>>)
      modifies this
      ensures !loading
      ensures searchTerm == old(searchTerm) && newTodoTitle == old(newTodoTitle)
      ensures outcome.Received? && outcome.reply.status ==> todos == outcome.reply.data && error == None
      ensures outcome.Received? && !outcome.reply.status ==> todos == old(todos) && error == Some(outcome.reply.message)
      ensures outcome.TransportError? ==> todos == old(todos) && error == Some(FetchFailed)
    {
      loading := true;
      error := None;
      match outcome {
        case Received(reply) =>
          if reply.status {
            todos := reply.data;
          } else {
            error := Some(reply.message);
          }
        case TransportError(_) =>
          error := Some(FetchFailed);
      }
      loading := false;
    }

    /** `handleAddTodo`: a blank title does nothing at all; otherwise the
        item the server confirms is appended and the input cleared, and a
        failure leaves the list and the input as they were and shows a
        message; loading ends false. A confirming reply carries the item
        (`ApiResponse<Todo>`), as `CreateReply` guarantees. */
    method HandleAddTodo(outcome: Response<Option<Todo>>)
      requires outcome.Received? && outcome.reply.status ==> outcome.reply.data.Some?
      modifies this
      ensures IsBlank(old(newTodoTitle)) ==>
        todos == old(todos) && newTodoTitle == old(newTodoTitle) && loading == old(loading) && error == old(error)
      ensures searchTerm == old(searchTerm)
      ensures !IsBlank(old(newTodoTitle)) ==> !loading
      ensures !IsBlank(old(newTodoTitle)) && outcome.Received? && outcome.reply.status ==>
        todos == old(todos) + [outcome.reply.data.value] && newTodoTitle == "" && error == old(error)
      ensures !IsBlank(old(newTodoTitle)) && outcome.Received? && !outcome.reply.status ==>
        todos == old(todos) && newTodoTitle == old(newTodoTitle) && error == Some(outcome.reply.message)
      ensures !IsBlank(old(newTodoTitle)) && outcome.TransportError? ==>
        todos == old(todos) && newTodoTitle == old(newTodoTitle) && error == Some(AddFailureMessage(outcome.responseMessage))
    {
      var trimmed := Trim(newTodoTitle);
      TrimEmptyIffBlank(newTodoTitle);
      if trimmed == "" {
        return;
      }
      loading := true;
      match outcome {
        case Received(reply) =>
          if reply.status {
            todos := todos + [reply.data.value];
            newTodoTitle := "";
          } else {
            error := Some(reply.message);
          }
        case TransportError(responseMessage) =>
          error := Some(AddFailureMessage(responseMessage));
      }
      loading := false;
    }

    /** `handleToggleTodo`: flip the matching items at once; if the server
        refuses or the request fails, put back the snapshot taken before the
        flip and show a message. A confirmed toggle keeps the flipped list
        (the returned item is not merged in). Loading is not touched. */
    method HandleToggleTodo(id: string, outcome: Response<Option<Todo>>)
      modifies this
      ensures loading == old(loading) && searchTerm == old(searchTerm) && newTodoTitle == old(newTodoTitle)
      ensures ToggleConfirmed(outcome) ==> todos == FlipMatching(old(todos), id) && error == old(error)
      ensures !ToggleConfirmed(outcome) ==> todos == old(todos)
      ensures outcome.Received? && !outcome.reply.status ==> error == Some(outcome.reply.message)
      ensures outcome.TransportError? ==> error == Some(ToggleFailed)
    {
      var originalTodos := todos;
      todos := FlipMatching(todos, id);
      match outcome {
        case Received(reply) =>
          if !reply.status {
            todos := originalTodos;
            error := Some(reply.message);
          }
        case TransportError(_) =>
          todos := originalTodos;
          error := Some(ToggleFailed);
      }
    }
  }

  /** The table and `GET /todos?search=` select the same items from the
      same list, for every term, the empty one included. */
  lemma ClientAndServerFiltersAgree(app: App, service: TodosService)
    requires app.todos == service.todos
    ensures app.FilteredTodos() == service.FindAll(Some(app.searchTerm))
  {
  }
}

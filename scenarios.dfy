/** Whole request/response runs over fresh objects: server-side sequences
    of calls, and the client consuming what the server's endpoints send. */
module Scenarios {
  import opened Wrappers
  import opened Todos
  import opened Service
  import opened Controller
  import opened Filters
  import opened Client

  /** Create one item, then list everything: exactly that item, not completed. */
  method CreateThenList() returns (listed: seq<Todo>)
    ensures listed == [Todo("id-1", "Buy milk", false)]
  {
    var service := new TodosService();
    var created := service.Create("id-1", "Buy milk");
    listed := service.FindAll(None);
  }

  /** Two items, a lower-case search: only the one whose title contains it. */
  method CreateTwiceThenSearch() returns (listed: seq<Todo>)
    ensures listed == [Todo("id-2", "Wash car", false)]
  {
    var service := new TodosService();
    var milk := service.Create("id-1", "Buy milk");
    var car := service.Create("id-2", "Wash car");
    listed := service.FindAll(Some("wash"));
    WashMatchesOnlyCar();
    var items := [Todo("id-1", "Buy milk", false), Todo("id-2", "Wash car", false)];
    assert items[1..] == [Todo("id-2", "Wash car", false)];
    assert Filter(items, "wash") == [Todo("id-2", "Wash car", false)];
  }

  lemma WashMatchesOnlyCar()
    ensures Matches("Wash car", "wash") && !Matches("Buy milk", "wash")
  {
    assert Lower("wash") == "wash" by {
      forall i | 0 <= i < 4 ensures Lower("wash")[i] == "wash"[i] {}
    }
    assert Lower("Buy milk") == "buy milk" by {
      forall i | 0 <= i < 8 ensures Lower("Buy milk")[i] == "buy milk"[i] {}
    }
    assert Lower("Wash car") == "wash car" by {
      forall i | 0 <= i < 8 ensures Lower("Wash car")[i] == "wash car"[i] {}
    }
    assert StartsWith("wash car", "wash");
    assert forall i :: 0 <= i < 8 ==> "buy milk"[i] != 'w';
    AbsentFirstCharNotContained("buy milk", "wash");
  }

  /** Toggle one item twice: completed, then not completed again. */
  method ToggleTwiceOverHttp() returns (first: Envelope<Option<Todo>>, second: Envelope<Option<Todo>>)
    ensures first == Envelope(Some(Todo("id-1", "X", true)), true, ToggleSucceeded)
    ensures second == Envelope(Some(Todo("id-1", "X", false)), true, ToggleSucceeded)
  {
    var service := new TodosService();
    var controller := new TodosController(service);
    var created := controller.Create("id-1", "X");
    first := controller.Toggle("id-1");
    second := controller.Toggle("id-1");
  }

  /** Toggle an id that is not there: the generic failure reply, empty store. */
  method ToggleUnknownOverHttp() returns (reply: Envelope<Option<Todo>>, size: nat)
    ensures reply == Envelope(None, false, GenericFailure)
    ensures size == 0
  {
    var service := new TodosService();
    var controller := new TodosController(service);
    reply := controller.Toggle("nonexistent-id");
    size := |service.todos|;
  }

  /** The client loads what the list endpoint sends: its cache equals the
      server's store, and with no search term it shows all of it. */
  method FetchMirrorsStore() returns (shown: seq<Todo>, stored: seq<Todo>)
    ensures shown == stored == [Todo("id-1", "Buy milk", false), Todo("id-2", "Wash car", false)]
  {
    var service := new TodosService();
    var controller := new TodosController(service);
    var r1 := controller.Create("id-1", "Buy milk");
    var r2 := controller.Create("id-2", "Wash car");
    var reply := controller.FindAll(None);
    var app := new App();
    app.FetchTodos(Received(reply));
    shown := app.FilteredTodos();
    stored := service.todos;
  }

  /** An optimistic toggle of a cached item that the server refuses (its
      store does not hold the id): the flip did change the list, and the
      refusal puts back exactly the list as it was and shows the server's
      message. */
  method RefusedToggleRollsBack() returns (before: seq<Todo>, after: seq<Todo>, error: Option<string>)
    ensures FlipMatching(before, "id-1") != before
    ensures after == before && error == Some(GenericFailure)
  {
    var app := new App();
    app.FetchTodos(Received(ListReply(Success([Todo("id-1", "Buy milk", false)]))));
    before := app.todos;
    var service := new TodosService();
    var controller := new TodosController(service);
    var reply := controller.Toggle("id-1");
    app.HandleToggleTodo("id-1", Received(reply));
    after, error := app.todos, app.error;
    assert FlipMatching(before, "id-1")[0].completed;
  }

  /** A confirmed toggle leaves the client's cache equal to the server's
      store, because ids are unique. */
  method ConfirmedToggleMatchesServer() returns (cached: seq<Todo>, stored: seq<Todo>)
    ensures cached == stored
  {
    var service := new TodosService();
    var controller := new TodosController(service);
    var created := controller.Create("id-1", "Buy milk");
    var app := new App();
    var listed := controller.FindAll(None);
    app.FetchTodos(Received(listed));
    ghost var snapshot := service.todos;
    var reply := controller.Toggle("id-1");
    app.HandleToggleTodo("id-1", Received(reply));
    FlipMatchingAgreesWithServer(snapshot, "id-1");
    cached, stored := app.todos, service.todos;
  }

  /** A title rejected by validation: the 400 reply makes the HTTP client
      throw, and the client shows the first validation message. The
      exception is an input chosen for this run, since the title rules
      themselves lie outside this model; its messages are ones "x" fails. */
  method RejectedTitleShowsFirstMessage() returns (code: int, error: Option<string>, todos: seq<Todo>)
    ensures code == 400
    ensures error == Some("title must be longer than or equal to 3 characters")
    ensures todos == []
  {
    var rejection := Catch(BadRequestException(400, List(["title must be longer than or equal to 3 characters", "title must match /^[A-Z]/ regular expression"])));
    var app := new App();
    app.newTodoTitle := "x";
    assert !IsTrimmable(app.newTodoTitle[0]);
    app.HandleAddTodo(TransportError(rejection.body.message));
    code, error, todos := rejection.code, app.error, app.todos;
  }
}

/** The backend's in-memory store: an insertion-ordered list of items with
    list (optionally searched), create and toggle. */
module Service {
  import opened Wrappers
  import opened Todos

  /** What the service throws, with the exception's message. `NotFound` is
      the only exception it raises itself; `Internal` stands for any other
      runtime failure, which the controller's `catch` also absorbs. */
  datatype ServiceError = NotFound(message: string) | Internal(detail: string)

  /** The text of the not-found exception: it names the id. */
  function NotFoundMessage(id: string): (m: string)
    ensures Contains(m, id)
  {
    var m := "Todo with ID " + id + " not found";
    assert OccursAt(m, id, 13);
    ContainsIffOccurs(m, id);
    m
  }

  /** Some item in `items` carries `id`. */
  predicate HasId(items: seq<Todo>, id: string)
  {
    exists i :: 0 <= i < |items| && items[i].id == id
  }

  /** No two items share an id. */
  predicate UniqueIds(items: seq<Todo>)
  {
    forall i, j :: 0 <= i < j < |items| ==> items[i].id != items[j].id
  }

  /** `items.find(t => t.id === id)`, as the position of the first item
      with that id. */
  function FirstIndexOf(items: seq<Todo>, id: string): (r: Option<nat>)
    ensures r.Some? ==> r.value < |items| && items[r.value].id == id
    ensures r.Some? ==> forall j :: 0 <= j < r.value ==> items[j].id != id
    ensures r.None? <==> !HasId(items, id)
  {
    if items == [] then None
    else if items[0].id == id then Some(0)
    else match FirstIndexOf(items[1..], id)
      case None => None
      case Some(k) => Some(k + 1)
  }

  /** The store after a toggle: the first item with `id` flipped, or the
      store as it was when no item has that id. */
  function Toggled(items: seq<Todo>, id: string): (r: seq<Todo>)
    ensures |r| == |items|
    ensures r == items <==> !HasId(items, id)
  {
    match FirstIndexOf(items, id)
    case None => items
    case Some(i) => items[i := Flip(items[i])]
  }

  /** The ids of the items, position by position. */
  function Ids(items: seq<Todo>): (r: seq<string>)
    ensures |r| == |items|
    ensures forall i :: 0 <= i < |items| ==> r[i] == items[i].id
  {
    seq(|items|, i requires 0 <= i < |items| => items[i].id)
  }

  /** Which item is found depends only on the ids, not on titles or flags. */
  lemma FirstIndexOfDependsOnIds(a: seq<Todo>, b: seq<Todo>, id: string)
    requires Ids(a) == Ids(b)
    ensures FirstIndexOf(a, id) == FirstIndexOf(b, id)
  {
  }

  /** A toggle changes no id, no title, no position and no length: only
      the `completed` flag of the first item with `id`. */
  lemma ToggledShape(items: seq<Todo>, id: string)
    ensures |Toggled(items, id)| == |items| && Ids(Toggled(items, id)) == Ids(items)
    ensures forall j :: 0 <= j < |items| ==> Toggled(items, id)[j].title == items[j].title
    ensures forall j :: 0 <= j < |items| ==>
      (Toggled(items, id)[j].completed != items[j].completed <==> FirstIndexOf(items, id) == Some(j))
  {
  }

  /** Toggling the same id twice restores the store. */
  lemma ToggleTwice(items: seq<Todo>, id: string)
    ensures Toggled(Toggled(items, id), id) == items
  {
  }

  /** A toggle keeps the ids unique. */
  lemma ToggledKeepsUniqueIds(items: seq<Todo>, id: string)
    requires UniqueIds(items)
    ensures UniqueIds(Toggled(items, id))
  {
  }

  class TodosService {
    /** The store, in insertion order. */
    var todos: seq<Todo>

    /** Every item has an id of its own. */
    ghost predicate Valid()
      reads this
    {
      UniqueIds(todos)
    }

    constructor ()
      ensures Valid() && todos == []
    {
      todos := [];
    }

    /** `findAll(search?)`: without a search term, or with the empty one
        (which JavaScript treats as false), the whole store; otherwise the
        items whose title matches the term, in store order. */
    function FindAll(search: Option<string>): (r: seq<Todo>)
      reads this
      ensures search.None? || search == Some("") ==> r == todos
      ensures search.Some? ==> r == Filter(todos, search.value)
    {
      match search
      case Some(term) =>
        if term != "" then Filter(todos, term)
        else FilterEmptyTerm(todos); todos
      case None => todos
    }

    /** `create`: append an item with the given title, not completed, under
        the caller-supplied fresh `id`, and return it. */
    method Create(id: string, title: string) returns (t: Todo)
      requires Valid()
      requires !HasId(todos, id)
      modifies this
      ensures Valid()
      ensures t == Todo(id, title, false)
      ensures todos == old(todos) + [t]
    {
      t := Todo(id, title, false);
      todos := todos + [t];
    }

    /** The linear scan behind `todos.find(t => t.id === id)`. */
    method Find(id: string) returns (found: Option<nat>)
      ensures found == FirstIndexOf(todos, id)
    {
      var i := 0;
      while i < |todos|
        invariant 0 <= i <= |todos|
        invariant forall j :: 0 <= j < i ==> todos[j].id != id
      {
        if todos[i].id == id {
          FirstIndexOfIsFirst(todos, id, i);
          return Some(i);
        }
        i := i + 1;
      }
      return None;
    }

    /** `toggle(id)`: flip the first item with `id` in place and return it,
        or throw not-found and leave the store as it was. */
    method Toggle(id: string) returns (r: Result<Todo, ServiceError>)
      requires Valid()
      modifies this
      ensures Valid()
      ensures todos == Toggled(old(todos), id)
      ensures r.Failure? <==> !HasId(old(todos), id)
      ensures r.Failure? ==> r.error == NotFound(NotFoundMessage(id))
      ensures r.Success? ==> FirstIndexOf(old(todos), id).Some? && r.value == todos[FirstIndexOf(old(todos), id).value]
      ensures r.Success? ==> r.value == Flip(old(todos)[FirstIndexOf(old(todos), id).value])
    {
      var found := Find(id);
      match found {
        case None =>
          r := Failure(NotFound(NotFoundMessage(id)));
        case Some(i) =>
          ToggledKeepsUniqueIds(todos, id);
          todos := todos[i := Flip(todos[i])];
          r := Success(todos[i]);
      }
    }
  }

  /** The first position carrying `id`, once every earlier position is known
      not to carry it. */
  lemma FirstIndexOfIsFirst(items: seq<Todo>, id: string, i: nat)
    requires i < |items| && items[i].id == id
    requires forall j :: 0 <= j < i ==> items[j].id != id
    ensures FirstIndexOf(items, id) == Some(i)
  {
  }
}

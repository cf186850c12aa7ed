/**
 * The todo store (src/stores/todos.ts): an ordered list of todo items, newest
 * first, mirrored as a whole into local storage under the key "todoList".
 */
module Todos {
  import opened Wrappers
  import opened Text
  import opened Sequences
  import opened Types
  import opened Storage

  const TodoKey: string := "todoList"

  /**
   * `loadTodos()`: the list stored under "todoList"; the empty list when the key
   * is missing or holds the empty string, and also when its text does not parse
   * (the `catch` branch).
   */
  function LoadTodos(entries: map<string, Stored>): seq<TodoRecord> {
    match Present(entries, TodoKey)
    case Some(StoredTodos(todos)) => todos
    case _ => []
  }

  // ---------------------------------------------------------------------------
  // The actions on plain records: the specification the store's methods follow.
  // ---------------------------------------------------------------------------

  /** The index `todos.find(t => t.id === id)` lands on: the first item with that id. */
  function Find(s: seq<TodoRecord>, id: int): (r: Option<nat>)
    ensures r.Some? ==> r.value < |s| && s[r.value].id == id
    ensures r.Some? ==> forall j :: 0 <= j < r.value ==> s[j].id != id
    ensures r.None? <==> forall j :: 0 <= j < |s| ==> s[j].id != id
  {
    if s == [] then None
    else if s[0].id == id then Some(0)
    else match Find(s[1..], id)
      case None => None
      case Some(i) => Some(i + 1)
  }

  /** `addTodo(text)` at clock reading `now`. */
  function Added(s: seq<TodoRecord>, text: string, now: int): seq<TodoRecord> {
    if IsBlank(text) then s else [TodoRecord(now, Trim(text), false)] + s
  }

  /** `removeTodo(id)`: the filter that keeps the items with another id. */
  function RemoveId(s: seq<TodoRecord>, id: int): seq<TodoRecord> {
    Filter(s, (t: TodoRecord) => t.id != id)
  }

  /** `toggleTodo(id)`: the first item with that id has its flag flipped. */
  function Toggled(s: seq<TodoRecord>, id: int): seq<TodoRecord> {
    match Find(s, id)
    case None => s
    case Some(i) => s[i := s[i].(isDone := !s[i].isDone)]
  }

  /** `editTodo(id, text)`: the first item with that id takes the trimmed text, unless it is blank. */
  function Edited(s: seq<TodoRecord>, id: int, text: string): seq<TodoRecord> {
    match Find(s, id)
    case None => s
    case Some(i) => if IsBlank(text) then s else s[i := s[i].(text := Trim(text))]
  }

  /** How many items carry the id. */
  function Occurrences(s: seq<TodoRecord>, id: int): nat {
    if s == [] then 0 else (if s[0].id == id then 1 else 0) + Occurrences(s[1..], id)
  }

  // ---------------------------------------------------------------------------
  // What the actions promise.
  // ---------------------------------------------------------------------------

  /**
   * A blank text changes nothing. Any other text adds exactly one item, at the
   * front: the trimmed text, not done, with the clock reading as id; the old
   * list follows unchanged and in order.
   */
  lemma AddedFront(s: seq<TodoRecord>, text: string, now: int)
    ensures IsBlank(text) ==> Added(s, text, now) == s
    ensures !IsBlank(text) ==>
      var r := Added(s, text, now);
      && |r| == |s| + 1
      && r[0] == TodoRecord(now, Trim(text), false)
      && r[1..] == s
      && r[0].text != [] && NoEdgeWhitespace(r[0].text)
  {
    if !IsBlank(text) {
      assert Added(s, text, now)[1..] == s;
    }
  }

  /** Remove keeps exactly the items with another id. */
  lemma RemoveIdMembers(s: seq<TodoRecord>, id: int)
    ensures forall t :: t in RemoveId(s, id) <==> t in s && t.id != id
  {
  }

  /** Remove keeps the relative order: it distributes over concatenation. */
  lemma RemoveIdOrder(a: seq<TodoRecord>, b: seq<TodoRecord>, id: int)
    ensures RemoveId(a + b, id) == RemoveId(a, id) + RemoveId(b, id)
  {
    FilterConcat(a, b, (t: TodoRecord) => t.id != id);
  }

  /** Removing twice is removing once. */
  lemma RemoveIdIdempotent(s: seq<TodoRecord>, id: int)
    ensures RemoveId(RemoveId(s, id), id) == RemoveId(s, id)
  {
    FilterIdempotent(s, (t: TodoRecord) => t.id != id);
  }

  /** Removing an id no item carries changes nothing. */
  lemma RemoveIdAbsent(s: seq<TodoRecord>, id: int)
    requires Find(s, id).None?
    ensures RemoveId(s, id) == s
  {
    FilterKeepsAll(s, (t: TodoRecord) => t.id != id);
  }

  /** Remove shortens the list by the number of items with that id. */
  lemma {:induction false} RemoveIdLength(s: seq<TodoRecord>, id: int)
    ensures |RemoveId(s, id)| == |s| - Occurrences(s, id)
  {
    if s != [] {
      RemoveIdLength(s[1..], id);
    }
  }

  /** Two lists with the same ids in the same places find the same item. */
  lemma {:induction false} FindSameIds(s: seq<TodoRecord>, s': seq<TodoRecord>, id: int)
    requires |s| == |s'|
    requires forall j :: 0 <= j < |s| ==> s[j].id == s'[j].id
    ensures Find(s, id) == Find(s', id)
  {
    if s != [] && s[0].id != id {
      FindSameIds(s[1..], s'[1..], id);
    }
  }

  /**
   * Toggle flips the flag of the first item with that id and of no other item;
   * every id and every text stays as it was.
   */
  lemma ToggledChanges(s: seq<TodoRecord>, id: int)
    ensures |Toggled(s, id)| == |s|
    ensures forall j :: 0 <= j < |s| ==>
      && Toggled(s, id)[j].id == s[j].id
      && Toggled(s, id)[j].text == s[j].text
      && (Toggled(s, id)[j].isDone != s[j].isDone <==> Find(s, id) == Some(j))
  {
  }

  /** Toggling the same id twice restores the list. */
  lemma ToggledTwice(s: seq<TodoRecord>, id: int)
    ensures Toggled(Toggled(s, id), id) == s
  {
    ToggledChanges(s, id);
    FindSameIds(s, Toggled(s, id), id);
  }

  /**
   * Edit changes nothing when no item has the id or the text is blank; otherwise
   * only the text of the first item with that id changes, to the trimmed text.
   */
  lemma EditedChanges(s: seq<TodoRecord>, id: int, text: string)
    ensures Find(s, id).None? || IsBlank(text) ==> Edited(s, id, text) == s
    ensures |Edited(s, id, text)| == |s|
    ensures forall j :: 0 <= j < |s| ==>
      && Edited(s, id, text)[j].id == s[j].id
      && Edited(s, id, text)[j].isDone == s[j].isDone
      && Edited(s, id, text)[j].text ==
           if Find(s, id) == Some(j) && !IsBlank(text) then Trim(text) else s[j].text
  {
  }

  /** Editing twice with the same text is editing once. */
  lemma EditedIdempotent(s: seq<TodoRecord>, id: int, text: string)
    ensures Edited(Edited(s, id, text), id, text) == Edited(s, id, text)
  {
    EditedChanges(s, id, text);
    FindSameIds(s, Edited(s, id, text), id);
  }

  /** Only add (+1 for a text that is not blank) and remove (minus the matches) change the length. */
  lemma LengthChanges(s: seq<TodoRecord>, id: int, text: string, now: int)
    ensures |Added(s, text, now)| == if IsBlank(text) then |s| else |s| + 1
    ensures |RemoveId(s, id)| == |s| - Occurrences(s, id)
    ensures |Toggled(s, id)| == |s|
    ensures |Edited(s, id, text)| == |s|
  {
    RemoveIdLength(s, id);
  }

  /** What is persisted is what loads back. */
  lemma LoadPersisted(entries: map<string, Stored>, s: seq<TodoRecord>)
    ensures LoadTodos(entries[TodoKey := StoredTodos(s)]) == s
  {
  }

  /** A missing key, an empty string and unparseable text all load as the empty list. */
  lemma LoadFallback(entries: map<string, Stored>)
    requires TodoKey !in entries || entries[TodoKey] == EmptyText || entries[TodoKey] == Corrupt
    ensures LoadTodos(entries) == []
  {
  }

  // ---------------------------------------------------------------------------
  // The store: item objects whose fields the actions update in place.
  // ---------------------------------------------------------------------------

  /** A todo item object; toggle and edit assign its fields. */
  class TodoItem {
    var id: int
    var text: string
    var isDone: bool

    constructor (r: TodoRecord)
      ensures Record() == r
    {
      id, text, isDone := r.id, r.text, r.isDone;
    }

    /** The item as plain data, as `JSON.stringify` writes it. */
    function Record(): TodoRecord
      reads this
    {
      TodoRecord(id, text, isDone)
    }
  }

  /** The records a list of item objects holds, in list order. */
  function View(items: seq<TodoItem>): (r: seq<TodoRecord>)
    reads items
    ensures |r| == |items|
  {
    if items == [] then [] else [items[0].Record()] + View(items[1..])
  }

  /** Position `j` of the view is the record of the object at position `j`. */
  lemma {:induction false} ViewAt(items: seq<TodoItem>, j: nat)
    requires j < |items|
    ensures View(items)[j] == items[j].Record()
  {
    if j > 0 {
      ViewAt(items[1..], j - 1);
    }
  }

  lemma ViewCons(x: TodoItem, items: seq<TodoItem>)
    ensures View([x] + items) == [x.Record()] + View(items)
  {
    assert ([x] + items)[1..] == items;
  }

  lemma {:induction false} ViewSnoc(items: seq<TodoItem>, x: TodoItem)
    ensures View(items + [x]) == View(items) + [x.Record()]
  {
    if items == [] {
      assert [] + [x] == [x];
    } else {
      assert (items + [x])[1..] == items[1..] + [x];
      ViewSnoc(items[1..], x);
    }
  }

  /** A list of records that matches the objects position by position is their view. */
  lemma ViewFromRecords(items: seq<TodoItem>, rs: seq<TodoRecord>)
    requires |rs| == |items|
    requires forall j :: 0 <= j < |items| ==> rs[j] == items[j].Record()
    ensures View(items) == rs
  {
    forall j | 0 <= j < |items| ensures View(items)[j] == rs[j] {
      ViewAt(items, j);
    }
  }

  /** Position by position, the view is the objects' records. */
  lemma ViewRecords(items: seq<TodoItem>)
    ensures forall j :: 0 <= j < |items| ==> View(items)[j] == items[j].Record()
  {
    forall j | 0 <= j < |items| ensures View(items)[j] == items[j].Record() {
      ViewAt(items, j);
    }
  }

  /** No object appears twice in the list. */
  ghost predicate Distinct(items: seq<TodoItem>) {
    forall i, j :: 0 <= i < j < |items| ==> items[i] != items[j]
  }

  lemma DistinctCons(x: TodoItem, items: seq<TodoItem>)
    requires Distinct(items) && x !in items
    ensures Distinct([x] + items)
  {
    var r := [x] + items;
    forall i, j | 0 <= i < j < |r| ensures r[i] != r[j] {
      if i == 0 { assert r[j] == items[j - 1]; }
    }
  }

  /** `todos.filter(todo => todo.id !== id)` on the item objects. */
  function Remaining(items: seq<TodoItem>, id: int): (r: seq<TodoItem>)
    reads items
    ensures forall x :: x in r ==> x in items
  {
    if items == [] then []
    else
      assert forall x :: x in items[1..] ==> x in items;
      (if items[0].id != id then [items[0]] else []) + Remaining(items[1..], id)
  }

  /** Filtering the objects filters their records the same way. */
  lemma {:induction false} RemainingView(items: seq<TodoItem>, id: int)
    ensures View(Remaining(items, id)) == RemoveId(View(items), id)
  {
    if items != [] {
      RemainingView(items[1..], id);
      var rest := Remaining(items[1..], id);
      assert View(items) == [items[0].Record()] + View(items[1..]);
      if items[0].id != id {
        ViewCons(items[0], rest);
      } else {
        assert Remaining(items, id) == rest;
      }
    }
  }

  /** The filtered list holds no object twice when the list did not. */
  lemma {:induction false} RemainingDistinct(items: seq<TodoItem>, id: int)
    requires Distinct(items)
    ensures Distinct(Remaining(items, id))
  {
    if items != [] {
      assert Distinct(items[1..]);
      RemainingDistinct(items[1..], id);
      var rest := Remaining(items[1..], id);
      if items[0].id != id {
        assert items[0] !in items[1..];
        assert items[0] !in rest;
        var r := [items[0]] + rest;
        forall i, j | 0 <= i < j < |r| ensures r[i] != r[j] {
          if i == 0 { assert r[j] in rest; }
        }
      }
    }
  }

  /** The parsed array's objects: one fresh, unshared item per record, in order. */
  method NewItems(records: seq<TodoRecord>) returns (items: seq<TodoItem>)
    ensures Distinct(items)
    ensures forall t :: t in items ==> fresh(t)
    ensures View(items) == records
  {
    items := [];
    var i := 0;
    while i < |records|
      invariant 0 <= i <= |records|
      invariant |items| == i
      invariant Distinct(items)
      invariant forall t :: t in items ==> fresh(t)
      invariant View(items) == records[..i]
    {
      var item := new TodoItem(records[i]);
      ViewSnoc(items, item);
      assert records[..i + 1] == records[..i] + [records[i]];
      items := items + [item];
      i := i + 1;
    }
    assert records[..i] == records;
  }

  class TodoStore {
    var todos: seq<TodoItem>
    const storage: LocalStorage

    ghost predicate Valid()
      reads this
    {
      Distinct(todos)
    }

    /** The list as plain records. */
    function Contents(): seq<TodoRecord>
      reads this, todos
    {
      View(todos)
    }

    /** Storage holds the current list, so reloading gives it back. */
    predicate Saved()
      reads this, todos, storage
    {
      LoadTodos(storage.entries) == Contents()
    }

    /** Store creation: `ref(loadTodos())`, one fresh object per loaded record. */
    constructor (storage: LocalStorage)
      ensures Valid() && this.storage == storage
      ensures Contents() == LoadTodos(storage.entries)
      ensures forall t :: t in todos ==> fresh(t)
    {
      var items := NewItems(LoadTodos(storage.entries));
      todos := items;
      this.storage := storage;
    }

    /** The deep watcher's write: the whole list under "todoList". */
    method Persist()
      modifies storage
      ensures Contents() == old(Contents())
      ensures storage.entries == old(storage.entries)[TodoKey := StoredTodos(Contents())]
      ensures Saved()
    {
      storage.SetItem(TodoKey, StoredTodos(Contents()));
    }

    /** The `unshift` of a new, unshared item carrying `r`. */
    method Prepend(r: TodoRecord)
      requires Valid()
      modifies this
      ensures Valid()
      ensures |todos| == |old(todos)| + 1 && fresh(todos[0]) && todos[1..] == old(todos)
      ensures Contents() == [r] + old(Contents())
    {
      var item := new TodoItem(r);
      ViewCons(item, todos);
      DistinctCons(item, todos);
      todos := [item] + todos;
    }

    /** `addTodo(text)`, with `Date.now()` passed in as `now`. A blank text changes nothing and writes nothing. */
    method AddTodo(text: string, now: int)
      requires Valid()
      modifies this, storage
      ensures Valid()
      ensures Contents() == Added(old(Contents()), text, now)
      ensures IsBlank(text) ==> todos == old(todos)
      ensures !IsBlank(text) ==> |todos| == |old(todos)| + 1 && fresh(todos[0]) && todos[1..] == old(todos)
      ensures storage.entries ==
        if IsBlank(text) then old(storage.entries)
        else old(storage.entries)[TodoKey := StoredTodos(Contents())]
      ensures old(Saved()) ==> Saved()
    {
      var trimmed := Trim(text);
      if trimmed != [] {
        Prepend(TodoRecord(now, trimmed, false));
        Persist();
      }
    }

    /**
     * `removeTodo(id)`. The filtered copy is a new array, which the watcher
     * always sees as a change, so the list is written even when nothing matched.
     */
    method RemoveTodo(id: int)
      requires Valid()
      modifies this, storage
      ensures Valid()
      ensures todos == old(Remaining(todos, id))
      ensures Contents() == RemoveId(old(Contents()), id)
      ensures storage.entries == old(storage.entries)[TodoKey := StoredTodos(Contents())]
      ensures Saved()
    {
      RemainingView(todos, id);
      RemainingDistinct(todos, id);
      todos := Remaining(todos, id);
      Persist();
    }

    /** `toggleTodo(id)`: flips the found item's flag in place; an absent id changes and writes nothing. */
    method ToggleTodo(id: int)
      requires Valid()
      modifies todos, storage
      ensures Valid()
      ensures todos == old(todos)
      ensures Contents() == Toggled(old(Contents()), id)
      ensures storage.entries ==
        if Find(old(Contents()), id).None? then old(storage.entries)
        else old(storage.entries)[TodoKey := StoredTodos(Contents())]
      ensures old(Saved()) ==> Saved()
    {
      var before := Contents();
      var found := Find(before, id);
      if found.Some? {
        var item := todos[found.value];
        ViewRecords(todos);
        ghost var after := before[found.value := before[found.value].(isDone := !item.isDone)];
        item.isDone := !item.isDone;
        ViewFromRecords(todos, after);
        Persist();
      }
    }

    /**
     * `editTodo(id, text)`: the found item takes the trimmed text in place. An
     * assignment of the text the item already has is not a change the watcher
     * sees, so storage is written exactly when the list changes.
     */
    method EditTodo(id: int, newText: string)
      requires Valid()
      modifies todos, storage
      ensures Valid()
      ensures todos == old(todos)
      ensures Contents() == Edited(old(Contents()), id, newText)
      ensures storage.entries ==
        if Contents() == old(Contents()) then old(storage.entries)
        else old(storage.entries)[TodoKey := StoredTodos(Contents())]
      ensures old(Saved()) ==> Saved()
    {
      var before := Contents();
      var found := Find(before, id);
      if found.Some? && !IsBlank(newText) {
        var trimmed := Trim(newText);
        ViewAt(todos, found.value);
        if todos[found.value].text != trimmed {
          SetText(found.value, trimmed);
          assert Contents()[found.value] != before[found.value];
          Persist();
        }
      }
    }

    /** `todo.text = ...` on the object at position `i`: only that record's text changes. */
    method SetText(i: nat, text: string)
      requires Valid() && i < |todos|
      modifies todos[i]
      ensures Valid() && todos == old(todos)
      ensures Contents() == old(Contents())[i := old(Contents())[i].(text := text)]
    {
      var before := Contents();
      ViewRecords(todos);
      ghost var after := before[i := before[i].(text := text)];
      todos[i].text := text;
      ViewFromRecords(todos, after);
    }
  }
}

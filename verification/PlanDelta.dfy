/** Merging a conductor's plan delta into the persisted todos. */
module PlanDelta {
  import opened Common

  datatype TodoStatus = PENDING | IN_PROGRESS | DONE | FAILED | CANCELLED

  datatype WorkTodo = WorkTodo(
    id: string, content: string, status: TodoStatus, assignedPersona: string, dependsOn: seq<string>)

  /** One update, its alternative fields already resolved to the first nonempty one; "" when none is given. */
  datatype Item = NotADict | Item(id: string, content: string, status: TodoStatus, persona: string)

  function Digit(n: nat): string
    requires n < 10
  {
    ["0123456789"[n]]
  }

  /** str(n). */
  function Decimal(n: nat): string {
    if n < 10 then Digit(n) else Decimal(n / 10) + Digit(n % 10)
  }

  predicate Digits(s: string) {
    forall i :: 0 <= i < |s| ==> '0' <= s[i] <= '9'
  }

  /** The number a string of digits stands for. */
  function Value(s: string): int {
    if s == "" then 0 else 10 * Value(s[..|s| - 1]) + (s[|s| - 1] as int - '0' as int)
  }

  lemma DigitReads(n: nat)
    requires n < 10
    ensures |Digit(n)| == 1 && '0' <= Digit(n)[0] <= '9' && Digit(n)[0] as int - '0' as int == n
  {
  }

  lemma ValueLast(s: string, c: string)
    requires |c| == 1
    ensures Value(s + c) == 10 * Value(s) + (c[0] as int - '0' as int)
  {
    assert (s + c)[..|s + c| - 1] == s;
  }

  /** The decimal form of a number: digits standing for it, the first of several not a zero. */
  lemma {:induction false} DecimalReads(n: nat)
    ensures var s := Decimal(n);
            s != "" && Digits(s) && Value(s) == n && (n > 0 ==> s[0] != '0')
  {
    DigitReads(n % 10);
    if n < 10 {
      ValueLast("", Digit(n));
      assert "" + Digit(n) == Digit(n);
    } else {
      DecimalReads(n / 10);
      ValueLast(Decimal(n / 10), Digit(n % 10));
    }
  }

  /** An item without an id is known by its position, counted from one. */
  function IdAt(items: seq<Item>, i: nat): string
    requires i < |items| && items[i].Item?
  {
    Or(items[i].id, Decimal(i + 1))
  }

  /** An item goes by its own id, or else by the decimal form of its position, the first being 1. */
  lemma NamedByPosition(items: seq<Item>, i: nat)
    requires i < |items| && items[i].Item?
    ensures items[i].id != "" ==> IdAt(items, i) == items[i].id
    ensures items[i].id == "" ==>
      var s := IdAt(items, i);
      s != "" && Digits(s) && Value(s) == i + 1 && s[0] != '0'
  {
    DecimalReads(i + 1);
  }

  // ---------------------------------------------------------------------------------------
  // An insertion-ordered dict keyed by id

  function Ids(todos: seq<WorkTodo>): (ids: seq<string>)
    ensures |ids| == |todos| && forall i :: 0 <= i < |todos| ==> ids[i] == todos[i].id
  {
    seq(|todos|, i requires 0 <= i < |todos| => todos[i].id)
  }

  function Find(todos: seq<WorkTodo>, id: string): (r: Option<nat>)
    ensures r.None? ==> forall i :: 0 <= i < |todos| ==> todos[i].id != id
    ensures r.Some? ==>
      r.value < |todos| && todos[r.value].id == id && forall i :: 0 <= i < r.value ==> todos[i].id != id
  {
    if todos == [] then None
    else
      var n := |todos| - 1;
      match Find(todos[..n], id)
      case Some(k) => Some(k)
      case None => if todos[n].id == id then Some(n) else None
  }

  lemma FindIds(todos: seq<WorkTodo>, id: string)
    ensures Find(todos, id).None? <==> id !in Ids(todos)
  {
    var f := Find(todos, id);
    if f.Some? { assert Ids(todos)[f.value] == id; }
  }

  /** dict[todo.id] = todo. */
  function Put(todos: seq<WorkTodo>, todo: WorkTodo): seq<WorkTodo> {
    match Find(todos, todo.id)
    case Some(k) => todos[k := todo]
    case None => todos + [todo]
  }

  lemma PutIds(todos: seq<WorkTodo>, todo: WorkTodo)
    ensures Ids(Put(todos, todo)) == if todo.id in Ids(todos) then Ids(todos) else Ids(todos) + [todo.id]
  {
    FindIds(todos, todo.id);
  }

  /** {t.id: t for t in todos}. */
  function ById(todos: seq<WorkTodo>): seq<WorkTodo> {
    if todos == [] then [] else Put(ById(todos[..|todos| - 1]), todos[|todos| - 1])
  }

  function Update(existing: WorkTodo, item: Item): WorkTodo
    requires item.Item?
  {
    existing.(content := Or(item.content, existing.content), status := item.status,
              assignedPersona := Or(item.persona, existing.assignedPersona))
  }

  function ApplyItem(todos: seq<WorkTodo>, id: string, item: Item): seq<WorkTodo> {
    if item.NotADict? then todos
    else match Find(todos, id)
      case Some(k) => todos[k := Update(todos[k], item)]
      case None =>
        if item.content != "" then todos + [WorkTodo(id, item.content, item.status, item.persona, [])] else todos
  }

  function ItemId(items: seq<Item>, i: nat): string
    requires i < |items|
  {
    if items[i].NotADict? then "" else IdAt(items, i)
  }

  /** The first `n` items applied in order. */
  function ApplyItems(todos: seq<WorkTodo>, items: seq<Item>, n: nat): seq<WorkTodo>
    requires n <= |items|
  {
    if n == 0 then todos else ApplyItem(ApplyItems(todos, items, n - 1), ItemId(items, n - 1), items[n - 1])
  }

  function ApplyPlanDelta(todos: seq<WorkTodo>, items: seq<Item>): seq<WorkTodo> {
    if items == [] then todos else ApplyItems(ById(todos), items, |items|)
  }

  method IndexById(todos: seq<WorkTodo>) returns (r: seq<WorkTodo>)
    ensures r == ById(todos)
  {
    r := [];
    for i := 0 to |todos|
      invariant r == ById(todos[..i])
    {
      assert todos[..i + 1][..i] == todos[..i];
      r := Put(r, todos[i]);
    }
    assert todos[..|todos|] == todos;
  }

  method MergeItem(todos: seq<WorkTodo>, todoId: string, item: Item) returns (r: seq<WorkTodo>)
    requires item.Item?
    ensures r == ApplyItem(todos, todoId, item)
  {
    r := todos;
    var at := Find(todos, todoId);
    if at.Some? {
      var existing := todos[at.value];
      r := todos[at.value := existing.(content := if item.content != "" then item.content else existing.content,
                                       status := item.status,
                                       assignedPersona :=
                                         if item.persona != "" then item.persona else existing.assignedPersona)];
    } else if item.content != "" {
      r := todos + [WorkTodo(todoId, item.content, item.status, item.persona, [])];
    }
  }

  method MergePlanDelta(todos: seq<WorkTodo>, items: seq<Item>) returns (r: seq<WorkTodo>)
    ensures r == ApplyPlanDelta(todos, items)
    ensures items == [] ==> r == todos
  {
    if items == [] { return todos; }
    r := IndexById(todos);
    for i := 0 to |items|
      invariant r == ApplyItems(ById(todos), items, i)
    {
      var item := items[i];
      if item.NotADict? { continue; }
      r := MergeItem(r, if item.id != "" then item.id else Decimal(i + 1), item);
    }
  }

  // ---------------------------------------------------------------------------------------
  // No todo is lost, ids stay in order, dependencies survive

  lemma {:induction false} ByIdIds(todos: seq<WorkTodo>)
    ensures Ids(ById(todos)) == Dedup(Ids(todos))
  {
    if todos == [] {
    } else {
      var front, last := todos[..|todos| - 1], todos[|todos| - 1];
      ByIdIds(front);
      PutIds(ById(front), last);
      DedupAppend(Ids(front), last.id);
      assert Ids(todos) == Ids(front) + [last.id];
    }
  }

  /** The ids the first `n` items add, in delta order. */
  function NewIds(have: seq<string>, items: seq<Item>, n: nat): seq<string>
    requires n <= |items|
  {
    if n == 0 then []
    else
      var before := NewIds(have, items, n - 1);
      var id := ItemId(items, n - 1);
      if items[n - 1].Item? && items[n - 1].content != "" && id !in have && id !in before then before + [id] else before
  }

  lemma ApplyItemIds(todos: seq<WorkTodo>, id: string, item: Item)
    ensures Ids(ApplyItem(todos, id, item)) ==
      if item.Item? && item.content != "" && id !in Ids(todos) then Ids(todos) + [id] else Ids(todos)
  {
    FindIds(todos, id);
  }

  lemma {:induction false} ApplyItemsIds(todos: seq<WorkTodo>, items: seq<Item>, n: nat)
    requires n <= |items|
    ensures Ids(ApplyItems(todos, items, n)) == Ids(todos) + NewIds(Ids(todos), items, n)
  {
    if n > 0 {
      ApplyItemsIds(todos, items, n - 1);
      ApplyItemIds(ApplyItems(todos, items, n - 1), ItemId(items, n - 1), items[n - 1]);
    }
  }

  /** Existing ids first, in order and without repetition; then the new ids, in delta order.
      So no id is lost or doubled. */
  lemma MergedIds(todos: seq<WorkTodo>, items: seq<Item>)
    requires items != []
    ensures var before := Dedup(Ids(todos));
            var after := Ids(ApplyPlanDelta(todos, items));
            && after == before + NewIds(before, items, |items|)
            && Distinct(after)
            && forall id :: id in Ids(todos) ==> id in after
  {
    ByIdIds(todos);
    ApplyItemsIds(ById(todos), items, |items|);
    NewIdsDistinct(Dedup(Ids(todos)), items, |items|);
  }

  lemma {:induction false} NewIdsDistinct(have: seq<string>, items: seq<Item>, n: nat)
    requires n <= |items| && Distinct(have)
    ensures Distinct(have + NewIds(have, items, n))
  {
    if n > 0 {
      NewIdsDistinct(have, items, n - 1);
      var before, id := NewIds(have, items, n - 1), ItemId(items, n - 1);
      assert have + (before + [id]) == (have + before) + [id];
    } else {
      assert have + [] == have;
    }
  }

  lemma FindFirst(todos: seq<WorkTodo>, id: string, k: nat)
    requires k < |todos| && Distinct(Ids(todos))
    ensures Find(todos, id) == Some(k) <==> todos[k].id == id
  {
    if todos[k].id == id {
      var f := Find(todos, id).value;
      assert Ids(todos)[k] == Ids(todos)[f] == id;
    }
  }

  /** One item rewrites the todo it names and no other. */
  lemma ItemStep(todos: seq<WorkTodo>, id: string, item: Item, k: nat)
    requires k < |todos| && Distinct(Ids(todos))
    ensures var after := ApplyItem(todos, id, item);
            && Distinct(Ids(after)) && |after| >= |todos|
            && after[k] == if item.Item? && id == todos[k].id then Update(todos[k], item) else todos[k]
  {
    ApplyItemIds(todos, id, item);
    FindFirst(todos, id, k);
  }

  /** A todo after the items among the first `n` that name it, in order. */
  function Updated(todo: WorkTodo, items: seq<Item>, n: nat): (r: WorkTodo)
    requires n <= |items|
    ensures r.id == todo.id && r.dependsOn == todo.dependsOn
  {
    if n == 0 then todo
    else
      var before := Updated(todo, items, n - 1);
      if items[n - 1].Item? && ItemId(items, n - 1) == todo.id then Update(before, items[n - 1]) else before
  }

  lemma {:induction false} ItemsKeepTodo(todos: seq<WorkTodo>, items: seq<Item>, n: nat, k: nat)
    requires n <= |items| && k < |todos| && Distinct(Ids(todos))
    ensures var after := ApplyItems(todos, items, n);
            |after| >= |todos| && Distinct(Ids(after)) && after[k] == Updated(todos[k], items, n)
  {
    if n > 0 {
      ItemsKeepTodo(todos, items, n - 1, k);
      ItemStep(ApplyItems(todos, items, n - 1), ItemId(items, n - 1), items[n - 1], k);
    }
  }

  /**
   On todos with distinct ids: every todo keeps its place, its id and its dependencies, and
   has been changed by exactly the items that name it, in delta order.
   */
  lemma TodosKept(todos: seq<WorkTodo>, items: seq<Item>, k: nat)
    requires k < |todos| && Distinct(Ids(todos))
    ensures var after := ApplyPlanDelta(todos, items);
            |after| >= |todos| && after[k] == Updated(todos[k], items, |items|) &&
            after[k].dependsOn == todos[k].dependsOn
  {
    ByIdDistinct(todos);
    if items != [] { ItemsKeepTodo(todos, items, |items|, k); }
  }

  /** The ids present before are a prefix of those after exactly when they were distinct. */
  lemma PrefixIffDistinct(todos: seq<WorkTodo>, items: seq<Item>)
    requires items != []
    ensures Ids(todos) <= Ids(ApplyPlanDelta(todos, items)) <==> Distinct(Ids(todos))
  {
    MergedIds(todos, items);
    if Distinct(Ids(todos)) { DedupDistinct(Ids(todos)); }
  }

  lemma {:induction false} ByIdDistinct(todos: seq<WorkTodo>)
    requires Distinct(Ids(todos))
    ensures ById(todos) == todos
  {
    if todos != [] {
      var front, last := todos[..|todos| - 1], todos[|todos| - 1];
      assert Ids(front) == Ids(todos)[..|todos| - 1];
      ByIdDistinct(front);
      assert last.id == Ids(todos)[|todos| - 1] && last.id !in Ids(front);
      FindIds(front, last.id);
      assert Put(front, last) == front + [last] == todos;
    }
  }

  // ---------------------------------------------------------------------------------------
  // What a delta does to one id

  predicate NamesAt(items: seq<Item>, i: nat, id: string)
    requires i < |items|
  {
    items[i].Item? && IdAt(items, i) == id
  }

  /** The todo kept under `id`, if any. */
  function At(todos: seq<WorkTodo>, id: string): Option<WorkTodo> {
    match Find(todos, id)
    case None => None
    case Some(k) => Some(todos[k])
  }

  /** One item naming `id`: updates the todo, or creates it when the item has content. */
  function Touch(todo: Option<WorkTodo>, id: string, item: Item): Option<WorkTodo>
    requires item.Item?
  {
    match todo
    case Some(existing) => Some(Update(existing, item))
    case None =>
      if item.content != "" then Some(WorkTodo(id, item.content, item.status, item.persona, [])) else None
  }

  /** The same under the first `n` items, from `start`. */
  function Track(items: seq<Item>, id: string, n: nat, start: Option<WorkTodo>): Option<WorkTodo>
    requires n <= |items|
  {
    if n == 0 then start
    else
      var before := Track(items, id, n - 1, start);
      var item := items[n - 1];
      if NamesAt(items, n - 1, id) then Touch(before, id, item) else before
  }

  lemma AtPosition(todos: seq<WorkTodo>, k: nat)
    requires k < |todos| && Distinct(Ids(todos))
    ensures At(todos, todos[k].id) == Some(todos[k])
  {
    FindFirst(todos, todos[k].id, k);
  }

  lemma AtUpdated(todos: seq<WorkTodo>, k: nat, todo: WorkTodo, id: string)
    requires Distinct(Ids(todos)) && k < |todos| && todo.id == todos[k].id
    ensures Ids(todos[k := todo]) == Ids(todos)
    ensures At(todos[k := todo], id) == if id == todo.id then Some(todo) else At(todos, id)
  {
    var after := todos[k := todo];
    FindIds(todos, id);
    FindIds(after, id);
    if Find(todos, id).Some? { AtPosition(after, Find(todos, id).value); }
  }

  lemma AtExtended(todos: seq<WorkTodo>, todo: WorkTodo, id: string)
    requires Distinct(Ids(todos)) && todo.id !in Ids(todos)
    ensures Ids(todos + [todo]) == Ids(todos) + [todo.id] && Distinct(Ids(todos + [todo]))
    ensures At(todos + [todo], id) == if id == todo.id then Some(todo) else At(todos, id)
  {
    var after := todos + [todo];
    FindIds(todos, id);
    FindIds(after, id);
    if Find(todos, id).Some? {
      AtPosition(after, Find(todos, id).value);
    } else if id == todo.id {
      AtPosition(after, |todos|);
    }
  }

  lemma AtAfterItem(todos: seq<WorkTodo>, other: string, item: Item, id: string)
    requires Distinct(Ids(todos))
    ensures Distinct(Ids(ApplyItem(todos, other, item)))
    ensures id != other || item.NotADict? ==> At(ApplyItem(todos, other, item), id) == At(todos, id)
    ensures id == other && item.Item? ==> At(ApplyItem(todos, other, item), id) == Touch(At(todos, id), id, item)
  {
    FindIds(todos, other);
    if item.Item? {
      match Find(todos, other)
      case Some(k) => AtUpdated(todos, k, Update(todos[k], item), id);
      case None =>
        if item.content != "" {
          AtExtended(todos, WorkTodo(other, item.content, item.status, item.persona, []), id);
        }
    }
  }

  lemma AtAfterPut(todos: seq<WorkTodo>, todo: WorkTodo, id: string)
    requires Distinct(Ids(todos))
    ensures Distinct(Ids(Put(todos, todo)))
    ensures At(Put(todos, todo), id) == if id == todo.id then Some(todo) else At(todos, id)
  {
    FindIds(todos, todo.id);
    match Find(todos, todo.id)
    case Some(k) => AtUpdated(todos, k, todo, id);
    case None => AtExtended(todos, todo, id);
  }

  /** Of several todos with one id the dict keeps the last. */
  lemma {:induction false} ByIdKeepsLast(todos: seq<WorkTodo>, k: nat)
    requires k < |todos| && forall j :: k < j < |todos| ==> todos[j].id != todos[k].id
    ensures At(ById(todos), todos[k].id) == Some(todos[k])
  {
    var front, last := todos[..|todos| - 1], todos[|todos| - 1];
    ByIdIds(front);
    AtAfterPut(ById(front), last, todos[k].id);
    if k < |todos| - 1 { ByIdKeepsLast(front, k); }
  }

  lemma {:induction false} ItemsTrack(todos: seq<WorkTodo>, items: seq<Item>, n: nat, id: string)
    requires n <= |items| && Distinct(Ids(todos))
    ensures Distinct(Ids(ApplyItems(todos, items, n)))
    ensures At(ApplyItems(todos, items, n), id) == Track(items, id, n, At(todos, id))
  {
    if n > 0 {
      ItemsTrack(todos, items, n - 1, id);
      AtAfterItem(ApplyItems(todos, items, n - 1), ItemId(items, n - 1), items[n - 1], id);
    }
  }

  /** Todos with the same distinct ids in the same order are told apart by what is kept under some id. */
  lemma SameTodos(a: seq<WorkTodo>, b: seq<WorkTodo>)
    requires Ids(a) == Ids(b) && Distinct(Ids(a)) && forall id :: At(a, id) == At(b, id)
    ensures a == b
  {
    forall k | 0 <= k < |a| ensures a[k] == b[k] {
      assert Ids(a)[k] == Ids(b)[k];
      AtPosition(a, k);
      AtPosition(b, k);
    }
  }

  // ---------------------------------------------------------------------------------------
  // The fields of one id, read off the items that name it

  /** The last nonempty content among the first `n` items naming `id`, or `old`. */
  function LastContent(items: seq<Item>, id: string, n: nat, prior: string): string
    requires n <= |items|
  {
    if n == 0 then prior
    else if NamesAt(items, n - 1, id) && items[n - 1].content != "" then items[n - 1].content
    else LastContent(items, id, n - 1, prior)
  }

  function LastStatus(items: seq<Item>, id: string, n: nat, prior: TodoStatus): TodoStatus
    requires n <= |items|
  {
    if n == 0 then prior
    else if NamesAt(items, n - 1, id) then items[n - 1].status
    else LastStatus(items, id, n - 1, prior)
  }

  /** The last persona named for `id` by the items from `lo` to before `n`, or `prior`. */
  function LastPersona(items: seq<Item>, id: string, lo: nat, n: nat, prior: string): string
    requires n <= |items|
    decreases n
  {
    if n <= lo then prior
    else if NamesAt(items, n - 1, id) && items[n - 1].persona != "" then items[n - 1].persona
    else LastPersona(items, id, lo, n - 1, prior)
  }

  predicate GivesPersona(items: seq<Item>, lo: nat, hi: nat, id: string)
    requires hi <= |items|
  {
    exists i :: lo <= i < hi && NamesAt(items, i, id) && items[i].persona != ""
  }

  /** The first item that names `id` with content. */
  function FirstContent(items: seq<Item>, id: string, n: nat): (r: Option<nat>)
    requires n <= |items|
    ensures r.None? ==> forall i :: 0 <= i < n && NamesAt(items, i, id) ==> items[i].content == ""
    ensures r.Some? ==>
      && r.value < n && NamesAt(items, r.value, id) && items[r.value].content != ""
      && forall i :: 0 <= i < r.value && NamesAt(items, i, id) ==> items[i].content == ""
  {
    if n == 0 then None
    else match FirstContent(items, id, n - 1)
      case Some(f) => Some(f)
      case None => if NamesAt(items, n - 1, id) && items[n - 1].content != "" then Some(n - 1) else None
  }

  function Fields(todo: WorkTodo, items: seq<Item>, id: string, n: nat): WorkTodo
    requires n <= |items|
  {
    todo.(content := LastContent(items, id, n, todo.content), status := LastStatus(items, id, n, todo.status),
          assignedPersona := LastPersona(items, id, 0, n, todo.assignedPersona))
  }

  lemma {:induction false} TrackKnown(items: seq<Item>, id: string, n: nat, todo: WorkTodo)
    requires n <= |items|
    ensures Track(items, id, n, Some(todo)) == Some(Fields(todo, items, id, n))
  {
    if n > 0 { TrackKnown(items, id, n - 1, todo); }
  }

  /** An id not among the todos: created by the first item with content, blind to the items before it. */
  lemma {:induction false} TrackNew(items: seq<Item>, id: string, n: nat)
    requires n <= |items|
    ensures var first := FirstContent(items, id, n);
            Track(items, id, n, None) ==
              if first.None? then None
              else Some(WorkTodo(id, LastContent(items, id, n, ""), LastStatus(items, id, n, PENDING),
                                 LastPersona(items, id, first.value, n, ""), []))
  {
    if n > 0 { TrackNew(items, id, n - 1); }
  }

  lemma {:induction false} ContentTwice(items: seq<Item>, id: string, n: nat, prior: string)
    requires n <= |items|
    ensures forall other :: (LastContent(items, id, n, other) == LastContent(items, id, n, prior)
                             || (LastContent(items, id, n, other) == other
                                 && LastContent(items, id, n, prior) == prior))
    ensures LastContent(items, id, n, LastContent(items, id, n, prior)) == LastContent(items, id, n, prior)
  {
    if n > 0 { ContentTwice(items, id, n - 1, prior); }
  }

  lemma {:induction false} StatusTwice(items: seq<Item>, id: string, n: nat, prior: TodoStatus)
    requires n <= |items|
    ensures forall other :: (LastStatus(items, id, n, other) == LastStatus(items, id, n, prior)
                             || (LastStatus(items, id, n, other) == other && LastStatus(items, id, n, prior) == prior))
    ensures LastStatus(items, id, n, LastStatus(items, id, n, prior)) == LastStatus(items, id, n, prior)
  {
    if n > 0 { StatusTwice(items, id, n - 1, prior); }
  }

  /** A persona named from `lo` on decides whatever came before; with none, the old one stays. */
  lemma {:induction false} PersonaCases(items: seq<Item>, id: string, lo: nat, n: nat, prior: string)
    requires n <= |items|
    ensures GivesPersona(items, lo, n, id) ==>
      && LastPersona(items, id, lo, n, prior) != ""
      && forall other :: LastPersona(items, id, 0, n, other) == LastPersona(items, id, lo, n, prior)
    ensures !GivesPersona(items, lo, n, id) ==> LastPersona(items, id, lo, n, prior) == prior
    decreases n
  {
    if n > lo {
      PersonaCases(items, id, lo, n - 1, prior);
      if NamesAt(items, n - 1, id) && items[n - 1].persona != "" {
        assert GivesPersona(items, lo, n, id);
      } else if GivesPersona(items, lo, n, id) {
        var i :| lo <= i < n && NamesAt(items, i, id) && items[i].persona != "";
        assert i < n - 1;
      }
    }
  }

  // ---------------------------------------------------------------------------------------
  // Applying a delta twice

  /** The second application leaves what the first one kept under `id` alone. */
  ghost predicate StableAt(items: seq<Item>, id: string, start: Option<WorkTodo>) {
    Track(items, id, |items|, Track(items, id, |items|, start)) == Track(items, id, |items|, start)
  }

  lemma KnownStable(items: seq<Item>, id: string, todo: WorkTodo)
    ensures StableAt(items, id, Some(todo))
  {
    var n := |items|;
    var once := Fields(todo, items, id, n);
    TrackKnown(items, id, n, todo);
    TrackKnown(items, id, n, once);
    ContentTwice(items, id, n, todo.content);
    StatusTwice(items, id, n, todo.status);
    PersonaCases(items, id, 0, n, todo.assignedPersona);
    PersonaCases(items, id, 0, n, once.assignedPersona);
  }

  /** If an item before the one that creates the todo names a persona, some item from that one on does. */
  predicate PersonaKept(items: seq<Item>, id: string) {
    var first := FirstContent(items, id, |items|);
    first.Some? && GivesPersona(items, 0, first.value, id) ==> GivesPersona(items, first.value, |items|, id)
  }

  lemma GivesSplit(items: seq<Item>, id: string, mid: nat)
    requires mid <= |items|
    ensures GivesPersona(items, 0, |items|, id) <==>
      GivesPersona(items, 0, mid, id) || GivesPersona(items, mid, |items|, id)
  {
  }

  lemma NewStableIff(items: seq<Item>, id: string)
    ensures StableAt(items, id, None) <==> PersonaKept(items, id)
  {
    var n := |items|;
    TrackNew(items, id, n);
    var first := FirstContent(items, id, n);
    if first.Some? {
      var f := first.value;
      var once := Track(items, id, n, None).value;
      TrackKnown(items, id, n, once);
      ContentTwice(items, id, n, "");
      StatusTwice(items, id, n, PENDING);
      PersonaCases(items, id, f, n, "");
      PersonaCases(items, id, 0, n, once.assignedPersona);
      GivesSplit(items, id, f);
    }
  }

  lemma TwiceAt(todos: seq<WorkTodo>, items: seq<Item>, id: string)
    requires Distinct(Ids(todos))
    ensures var once := ApplyItems(todos, items, |items|);
            var twice := ApplyItems(once, items, |items|);
            Distinct(Ids(once)) && Distinct(Ids(twice)) &&
            (At(twice, id) == At(once, id) <==> StableAt(items, id, At(todos, id)))
  {
    ItemsTrack(todos, items, |items|, id);
    ItemsTrack(ApplyItems(todos, items, |items|), items, |items|, id);
  }

  lemma SameIds(once: seq<WorkTodo>, twice: seq<WorkTodo>, more: seq<string>)
    requires Ids(twice) == Ids(once) + more && Distinct(Ids(twice)) && forall id :: At(twice, id) == At(once, id)
    ensures Ids(twice) == Ids(once)
  {
    if more != [] {
      var id := more[0];
      assert Ids(twice)[|Ids(once)|] == id && id in Ids(twice);
      assert At(twice, id) == At(once, id);
      assert forall k :: 0 <= k < |Ids(once)| ==> Ids(once)[k] == Ids(twice)[k] != id;
      FindIds(once, id);
      FindIds(twice, id);
      assert false;
    }
  }

  lemma SameEverywhere(once: seq<WorkTodo>, items: seq<Item>)
    requires var twice := ApplyItems(once, items, |items|);
             Distinct(Ids(twice)) && forall id :: At(twice, id) == At(once, id)
    ensures ApplyItems(once, items, |items|) == once
  {
    ApplyItemsIds(once, items, |items|);
    SameIds(once, ApplyItems(once, items, |items|), NewIds(Ids(once), items, |items|));
    SameTodos(ApplyItems(once, items, |items|), once);
  }

  lemma StableMeansFixed(todos: seq<WorkTodo>, items: seq<Item>)
    requires Distinct(Ids(todos))
    ensures var once := ApplyItems(todos, items, |items|);
            ApplyItems(once, items, |items|) == once <==> forall id :: StableAt(items, id, At(todos, id))
  {
    var once := ApplyItems(todos, items, |items|);
    var twice := ApplyItems(once, items, |items|);
    TwiceAt(todos, items, "");
    forall id ensures At(twice, id) == At(once, id) <==> StableAt(items, id, At(todos, id)) {
      TwiceAt(todos, items, id);
    }
    if forall id :: StableAt(items, id, At(todos, id)) {
      forall id ensures At(twice, id) == At(once, id) { assert StableAt(items, id, At(todos, id)); }
      SameEverywhere(once, items);
    }
  }

  /** Every new id that some item gives content keeps the personas named for it. */
  predicate NewPersonasKept(todos: seq<WorkTodo>, items: seq<Item>) {
    forall i :: 0 <= i < |items| && items[i].Item? && items[i].content != "" && IdAt(items, i) !in Ids(todos) ==>
      PersonaKept(items, IdAt(items, i))
  }

  /**
   Applying a delta a second time changes nothing if and only if, for every id it creates, an item before
   the creating one names a persona only if some item from that one on does too.
   */
  lemma DeltaTwiceIff(todos: seq<WorkTodo>, items: seq<Item>)
    ensures ApplyPlanDelta(ApplyPlanDelta(todos, items), items) == ApplyPlanDelta(todos, items)
      <==> NewPersonasKept(todos, items)
  {
    if items != [] {
      var start := ById(todos);
      ByIdIds(todos);
      StableMeansFixed(start, items);
      ItemsTrack(start, items, |items|, "");
      ByIdDistinct(ApplyPlanDelta(todos, items));
      forall id ensures StableAt(items, id, At(start, id)) <==> id in Ids(todos) || PersonaKept(items, id) {
        FindIds(start, id);
        if At(start, id).Some? { KnownStable(items, id, At(start, id).value); } else { NewStableIff(items, id); }
      }
      if NewPersonasKept(todos, items) {
        forall id | id !in Ids(todos) ensures PersonaKept(items, id) {
          var first := FirstContent(items, id, |items|);
          if first.Some? { assert PersonaKept(items, IdAt(items, first.value)); }
        }
      }
    }
  }

  /** The dict items have pairwise different ids. */
  ghost predicate DistinctItems(items: seq<Item>) {
    forall i, j :: 0 <= i < j < |items| && items[i].Item? && items[j].Item? ==> IdAt(items, i) != IdAt(items, j)
  }

  /** So a delta whose items have distinct ids may be applied any number of times. */
  lemma DeltaIdempotent(todos: seq<WorkTodo>, items: seq<Item>)
    requires DistinctItems(items)
    ensures ApplyPlanDelta(ApplyPlanDelta(todos, items), items) == ApplyPlanDelta(todos, items)
  {
    DeltaTwiceIff(todos, items);
  }

  /** And one that assigns a persona to an id before giving it content may not. */
  lemma EarlyPersonaNotIdempotent(id: string, persona: string, content: string)
    requires id != "" && persona != "" && content != ""
    ensures var items := [Item(id, "", DONE, persona), Item(id, content, PENDING, "")];
            ApplyPlanDelta(ApplyPlanDelta([], items), items) != ApplyPlanDelta([], items)
  {
    var items := [Item(id, "", DONE, persona), Item(id, content, PENDING, "")];
    DeltaTwiceIff([], items);
    assert NamesAt(items, 0, id) && NamesAt(items, 1, id);
    var first := FirstContent(items, id, 2);
    assert first == Some(1);
    assert GivesPersona(items, 0, 1, id) && !GivesPersona(items, 1, 2, id);
    assert !PersonaKept(items, IdAt(items, 1));
  }
}

/**
 * tools/todo/func.go (and tools/todo/todo.go, the same operations over a
 * global file path): the todo list tools. Each tool loads the list from
 * its file, changes it in memory and saves it back.
 *
 * The file's list is the field `todos` of the class `TodoTools`. Loading
 * and saving are given as their outcome (`Io`): a failed load or save
 * leaves the file as it was. The clock is the parameter `now`, and the
 * IDs generateID would make are given by `idOf` (the k-th new todo of a
 * call gets idOf(k)).
 */
module ToolsTodo {
  import opened GoStrings

  datatype Todo = Todo(id: string, title: string, description: string, status: string, priority: string,
                       createdAt: int, updatedAt: int, completedAt: Option<int>)

  /** The outcome of the file I/O of one call: the error loadTodoList returns, and the one saveTodoList returns. */
  datatype Io = Io(loadErr: Option<string>, saveErr: Option<string>)

  datatype Outcome<R> = Outcome(todos: seq<Todo>, reply: R)

  predicate ValidPriority(p: string) {
    p == "low" || p == "medium" || p == "high" || p == "urgent"
  }

  predicate ValidStatus(s: string) {
    s == "pending" || s == "in_progress" || s == "completed" || s == "cancelled"
  }

  const PriorityError := "优先级必须是 low, medium, high 或 urgent 之一"
  const StatusError := "状态必须是 pending, in_progress, completed 或 cancelled 之一"
  const EmptyIdError := "待办事项 ID 不能为空"

  function LoadError(e: string): string {
    "加载待办列表失败: " + e
  }

  function SaveError(e: string): string {
    "保存待办列表失败: " + e
  }

  function NotFoundError(id: string): string {
    "未找到 ID 为 " + id + " 的待办事项"
  }

  // ---------------------------------------------------------------------
  // Filtering

  /** The todos satisfying p, in their order. */
  function Keep(todos: seq<Todo>, p: Todo -> bool): seq<Todo> {
    if |todos| == 0 then []
    else Keep(todos[..|todos| - 1], p) + (if p(todos[|todos| - 1]) then [todos[|todos| - 1]] else [])
  }

  lemma {:induction false} KeepMeaning(todos: seq<Todo>, p: Todo -> bool)
    ensures forall t | t in Keep(todos, p) :: t in todos && p(t)
    ensures forall t | t in todos && p(t) :: t in Keep(todos, p)
    ensures |Keep(todos, p)| + |Keep(todos, (t: Todo) => !p(t))| == |todos|
  {
    if |todos| > 0 {
      var init := todos[..|todos| - 1];
      KeepMeaning(init, p);
      forall t | t in todos ensures t in init || t == todos[|todos| - 1] {
        var i :| 0 <= i < |todos| && todos[i] == t;
        if i < |todos| - 1 {
          assert init[i] == t;
        }
      }
    }
  }

  /** Filtering is done piecewise: it keeps the order of the list. */
  lemma {:induction false} KeepAppend(a: seq<Todo>, b: seq<Todo>, p: Todo -> bool)
    ensures Keep(a + b, p) == Keep(a, p) + Keep(b, p)
    decreases |b|
  {
    if |b| == 0 {
      assert a + b == a;
    } else {
      assert (a + b)[..|a + b| - 1] == a + b[..|b| - 1];
      KeepAppend(a, b[..|b| - 1], p);
    }
  }

  /** The filter of the list tool: each of status and priority, when given. */
  function Listed(status: string, priority: string): Todo -> bool {
    (t: Todo) => (status == "" || t.status == status) && (priority == "" || t.priority == priority)
  }

  // ---------------------------------------------------------------------
  // TodoAdd

  datatype AddRequest = AddRequest(title: string, description: string, priority: string)

  datatype AddReply = AddReply(success: bool, message: string, todo: Option<Todo>, errorMessage: string)

  function NewTodo(id: string, req: AddRequest, now: int): Todo {
    Todo(id, req.title, req.description, "pending", req.priority, now, now, None)
  }

  /** Why a request to add is refused, if it is. */
  function AddRefusal(req: AddRequest): Option<string> {
    if req.title == "" then Some("待办事项标题不能为空")
    else if req.priority != "" && !ValidPriority(req.priority) then Some(PriorityError)
    else None
  }

  function Add(todos: seq<Todo>, req: AddRequest, id: string, now: int, io: Io): (o: Outcome<AddReply>)
    ensures o.reply.success <==> req.title != "" && (req.priority == "" || ValidPriority(req.priority))
                                 && io.loadErr.None? && io.saveErr.None?
    ensures o.reply.success ==> o.todos == todos + [NewTodo(id, req, now)] && o.todos[|todos|].status == "pending"
    ensures !o.reply.success ==> o.todos == todos && o.reply.errorMessage != ""
  {
    if AddRefusal(req).Some? then Outcome(todos, AddReply(false, "", None, AddRefusal(req).value))
    else if io.loadErr.Some? then Outcome(todos, AddReply(false, "", None, LoadError(io.loadErr.value)))
    else if io.saveErr.Some? then Outcome(todos, AddReply(false, "", None, SaveError(io.saveErr.value)))
    else Outcome(todos + [NewTodo(id, req, now)], AddReply(true, "待办事项已添加", Some(NewTodo(id, req, now)), ""))
  }

  // ---------------------------------------------------------------------
  // TodoUpdate

  datatype UpdateRequest = UpdateRequest(id: string, title: Option<string>, description: Option<string>,
                                         status: Option<string>, priority: Option<string>)

  datatype UpdateReply = UpdateReply(success: bool, message: string, todo: Option<Todo>, errorMessage: string)

  /** The given fields of the request applied to one todo; completion is stamped once. */
  function Apply(t: Todo, req: UpdateRequest, now: int): (u: Todo)
    ensures u.id == t.id && u.createdAt == t.createdAt && u.updatedAt == now
    ensures u.title == (if req.title.Some? then req.title.value else t.title)
    ensures u.description == (if req.description.Some? then req.description.value else t.description)
    ensures u.status == (if req.status.Some? then req.status.value else t.status)
    ensures u.priority == (if req.priority.Some? then req.priority.value else t.priority)
    ensures t.completedAt.Some? ==> u.completedAt == t.completedAt
    ensures t.completedAt.None? ==> (u.completedAt.Some? <==> req.status == Some("completed"))
  {
    var titled := if req.title.Some? then t.(title := req.title.value) else t;
    var described := if req.description.Some? then titled.(description := req.description.value) else titled;
    var stated :=
      if req.status.Some? then
        var s := described.(status := req.status.value);
        if req.status.value == "completed" && s.completedAt.None? then s.(completedAt := Some(now)) else s
      else described;
    var prioritized := if req.priority.Some? then stated.(priority := req.priority.value) else stated;
    prioritized.(updatedAt := now)
  }

  /** The index of the first todo with this ID, or -1. */
  function FindId(todos: seq<Todo>, id: string): (r: int)
    ensures -1 <= r < |todos|
    ensures r >= 0 ==> todos[r].id == id && forall j | 0 <= j < r :: todos[j].id != id
    ensures r < 0 ==> forall j | 0 <= j < |todos| :: todos[j].id != id
    decreases |todos|
  {
    if |todos| == 0 then -1
    else if todos[0].id == id then 0
    else var r := FindId(todos[1..], id); if r < 0 then -1 else r + 1
  }

  function UpdateRefusal(req: UpdateRequest): Option<string> {
    if req.id == "" then Some(EmptyIdError)
    else if req.status.Some? && !ValidStatus(req.status.value) then Some(StatusError)
    else if req.priority.Some? && !ValidPriority(req.priority.value) then Some(PriorityError)
    else None
  }

  function Update(todos: seq<Todo>, req: UpdateRequest, now: int, io: Io): (o: Outcome<UpdateReply>)
    ensures o.reply.success ==>
              var i := FindId(todos, req.id);
              i >= 0 && o.todos == todos[i := Apply(todos[i], req, now)] && o.reply.todo == Some(o.todos[i])
    ensures !o.reply.success ==> o.todos == todos
    ensures UpdateRefusal(req).None? && io.loadErr.None? && FindId(todos, req.id) < 0 ==>
              o.reply == UpdateReply(false, "", None, NotFoundError(req.id))
    ensures o.reply.success <==> UpdateRefusal(req).None? && io.loadErr.None? && io.saveErr.None?
                                 && FindId(todos, req.id) >= 0
  {
    if UpdateRefusal(req).Some? then Outcome(todos, UpdateReply(false, "", None, UpdateRefusal(req).value))
    else if io.loadErr.Some? then Outcome(todos, UpdateReply(false, "", None, LoadError(io.loadErr.value)))
    else
      var i := FindId(todos, req.id);
      if i < 0 then Outcome(todos, UpdateReply(false, "", None, NotFoundError(req.id)))
      else if io.saveErr.Some? then Outcome(todos, UpdateReply(false, "", None, SaveError(io.saveErr.value)))
      else
        var updated := todos[i := Apply(todos[i], req, now)];
        Outcome(updated, UpdateReply(true, "待办事项已更新", Some(updated[i]), ""))
  }

  // ---------------------------------------------------------------------
  // TodoDelete

  datatype Reply = Reply(success: bool, message: string, errorMessage: string)

  function Delete(todos: seq<Todo>, id: string, io: Io): (o: Outcome<Reply>)
    ensures o.reply.success <==> id != "" && io.loadErr.None? && io.saveErr.None? && exists j | 0 <= j < |todos| :: todos[j].id == id
    ensures o.reply.success ==> o.todos == Keep(todos, (t: Todo) => t.id != id)
    ensures !o.reply.success ==> o.todos == todos
    ensures id != "" && io.loadErr.None? && (forall j | 0 <= j < |todos| :: todos[j].id != id) ==>
              o.reply == Reply(false, "", NotFoundError(id))
  {
    if id == "" then Outcome(todos, Reply(false, "", EmptyIdError))
    else if io.loadErr.Some? then Outcome(todos, Reply(false, "", LoadError(io.loadErr.value)))
    else if FindId(todos, id) < 0 then Outcome(todos, Reply(false, "", NotFoundError(id)))
    else if io.saveErr.Some? then Outcome(todos, Reply(false, "", SaveError(io.saveErr.value)))
    else Outcome(Keep(todos, (t: Todo) => t.id != id), Reply(true, "待办事项已删除", ""))
  }

  // ---------------------------------------------------------------------
  // TodoBatchAdd

  datatype BatchAddReply = BatchAddReply(success: bool, message: string, added: seq<Todo>, addedCount: int,
                                         errorMessage: string)

  /** The first refused request at or after position i and why, validating in request order. */
  function RefusalFrom(reqs: seq<AddRequest>, i: nat): (r: Option<(nat, string)>)
    requires i <= |reqs|
    ensures r.None? <==> forall j | i <= j < |reqs| :: AddRefusal(reqs[j]).None?
    ensures r.Some? ==> i <= r.value.0 < |reqs| && AddRefusal(reqs[r.value.0]).Some?
                        && r.value.1 == Renumbered(r.value.0, reqs[r.value.0])
                        && forall j | i <= j < r.value.0 :: AddRefusal(reqs[j]).None?
    decreases |reqs| - i
  {
    if i == |reqs| then None
    else if AddRefusal(reqs[i]).Some? then Some((i, Renumbered(i, reqs[i])))
    else RefusalFrom(reqs, i + 1)
  }

  function FirstRefusal(reqs: seq<AddRequest>): Option<(nat, string)> {
    RefusalFrom(reqs, 0)
  }

  /** The refusal message for the request at (0-based) position i. */
  function Renumbered(i: nat, req: AddRequest): string {
    if req.title == "" then "第 " + Itoa(i + 1) + " 个待办事项标题不能为空"
    else "第 " + Itoa(i + 1) + " 个待办事项优先级必须是 low, medium, high 或 urgent 之一"
  }

  function Made(reqs: seq<AddRequest>, idOf: nat -> string, now: int): (made: seq<Todo>)
    ensures |made| == |reqs|
  {
    seq(|reqs|, i requires 0 <= i < |reqs| => NewTodo(idOf(i), reqs[i], now))
  }

  function BatchAdd(todos: seq<Todo>, reqs: seq<AddRequest>, idOf: nat -> string, now: int, io: Io)
    : (o: Outcome<BatchAddReply>)
    ensures o.reply.success <==> |reqs| > 0 && (forall i | 0 <= i < |reqs| :: AddRefusal(reqs[i]).None?)
                                 && io.loadErr.None? && io.saveErr.None?
    ensures o.reply.success ==> o.todos == todos + o.reply.added && o.reply.added == Made(reqs, idOf, now)
                                && o.reply.addedCount == |reqs|
    ensures !o.reply.success ==> o.todos == todos
  {
    if |reqs| == 0 then Outcome(todos, BatchAddReply(false, "", [], 0, "待办事项列表不能为空"))
    else if FirstRefusal(reqs).Some? then Outcome(todos, BatchAddReply(false, "", [], 0, FirstRefusal(reqs).value.1))
    else if io.loadErr.Some? then Outcome(todos, BatchAddReply(false, "", [], 0, LoadError(io.loadErr.value)))
    else if io.saveErr.Some? then Outcome(todos, BatchAddReply(false, "", [], 0, SaveError(io.saveErr.value)))
    else
      var made := Made(reqs, idOf, now);
      Outcome(todos + made, BatchAddReply(true, "成功添加 " + Itoa(|made|) + " 个待办事项", made, |made|, ""))
  }

  // ---------------------------------------------------------------------
  // TodoBatchDelete

  datatype Swept = Swept(kept: seq<Todo>, deleted: nat, left: set<string>)

  /** The deleting loop: a todo whose ID is still in the set is deleted and its ID taken out of the set. */
  function Sweep(todos: seq<Todo>, ids: set<string>): Swept {
    if |todos| == 0 then Swept([], 0, ids)
    else
      var s := Sweep(todos[..|todos| - 1], ids);
      var t := todos[|todos| - 1];
      if t.id in s.left then Swept(s.kept, s.deleted + 1, s.left - {t.id}) else Swept(s.kept + [t], s.deleted, s.left)
  }

  /** The IDs the todos carry. */
  function IdsOf(todos: seq<Todo>): set<string> {
    set j | 0 <= j < |todos| :: todos[j].id
  }

  /** Whether todos[j] is the first todo carrying its ID. */
  predicate FirstCarrier(todos: seq<Todo>, j: int)
    requires 0 <= j < |todos|
  {
    forall i | 0 <= i < j :: todos[i].id != todos[j].id
  }

  /** Reference for what survives: every todo except the first carrier of each requested ID, in order. */
  function Survivors(todos: seq<Todo>, ids: set<string>): seq<Todo> {
    if |todos| == 0 then []
    else
      var j := |todos| - 1;
      Survivors(todos[..j], ids) + (if todos[j].id in ids && FirstCarrier(todos, j) then [] else [todos[j]])
  }

  /** The IDs the sweep has not met are the requested IDs no todo carries. */
  lemma {:induction false} SweepLeft(todos: seq<Todo>, ids: set<string>)
    ensures Sweep(todos, ids).left == ids - IdsOf(todos)
  {
    if |todos| > 0 {
      var init := todos[..|todos| - 1];
      var t := todos[|todos| - 1];
      SweepLeft(init, ids);
      assert IdsOf(todos) == IdsOf(init) + {t.id} by {
        forall x | x in IdsOf(todos) ensures x in IdsOf(init) + {t.id} {
          var j :| 0 <= j < |todos| && todos[j].id == x;
          if j < |init| { assert init[j].id == x; }
        }
      }
    }
  }

  /** The sweep keeps exactly the Survivors. */
  lemma {:induction false} SweepKept(todos: seq<Todo>, ids: set<string>)
    ensures Sweep(todos, ids).kept == Survivors(todos, ids)
  {
    if |todos| > 0 {
      var init := todos[..|todos| - 1];
      var t := todos[|todos| - 1];
      SweepKept(init, ids);
      SweepLeft(init, ids);
      if !FirstCarrier(todos, |todos| - 1) {
        var i :| 0 <= i < |todos| - 1 && todos[i].id == t.id;
        assert init[i].id == t.id;
      } else {
        assert t.id !in IdsOf(init);
      }
    }
  }

  /**
   * The counts of the sweep: deleted and not-found IDs together are the
   * requested ones, the IDs not found are those no todo carries, and every
   * todo is either kept or deleted (SweepKept says which are kept).
   */
  lemma {:induction false} SweepMeaning(todos: seq<Todo>, ids: set<string>)
    ensures var s := Sweep(todos, ids);
            && s.deleted + |s.left| == |ids| && s.left <= ids
            && |s.kept| + s.deleted == |todos|
            && (forall x | x in ids :: x in s.left <==> forall j | 0 <= j < |todos| :: todos[j].id != x)
  {
    if |todos| > 0 {
      var init := todos[..|todos| - 1];
      var t := todos[|todos| - 1];
      SweepMeaning(init, ids);
      var s := Sweep(init, ids);
      forall x | x in ids
        ensures (forall j | 0 <= j < |todos| :: todos[j].id != x)
                <==> (forall j | 0 <= j < |init| :: init[j].id != x) && t.id != x
      {
        forall j | 0 <= j < |init| ensures init[j] == todos[j] { }
      }
      if t.id in s.left {
        assert |s.left - {t.id}| == |s.left| - 1;
      }
    }
  }

  /** When no two todos share an ID, the survivors are the todos whose ID was not requested. */
  lemma {:induction false} SurvivorsDistinct(todos: seq<Todo>, ids: set<string>)
    requires forall i, j | 0 <= i < j < |todos| :: todos[i].id != todos[j].id
    ensures Survivors(todos, ids) == Keep(todos, (t: Todo) => t.id !in ids)
  {
    if |todos| > 0 {
      var init := todos[..|todos| - 1];
      SurvivorsDistinct(init, ids);
      assert FirstCarrier(todos, |todos| - 1);
    }
  }

  datatype BatchDeleteReply = BatchDeleteReply(success: bool, message: string, deletedCount: int,
                                               notFound: seq<string>, errorMessage: string)

  function BatchDeleteMessage(deleted: int, notFound: int): string {
    "成功删除 " + Itoa(deleted) + " 个待办事项" + (if notFound > 0 then "，" + Itoa(notFound) + " 个 ID 未找到" else "")
  }

  /** What TodoBatchDelete may reply: the not-found IDs come in map order, so only their set is fixed. */
  predicate BatchDeleted(todos: seq<Todo>, ids: seq<string>, io: Io, o: Outcome<BatchDeleteReply>) {
    if |ids| == 0 then o == Outcome(todos, BatchDeleteReply(false, "", 0, [], "ID 列表不能为空"))
    else if io.loadErr.Some? then o == Outcome(todos, BatchDeleteReply(false, "", 0, [], LoadError(io.loadErr.value)))
    else
      var s := Sweep(todos, set i | 0 <= i < |ids| :: ids[i]);
      if io.saveErr.Some? then o == Outcome(todos, BatchDeleteReply(false, "", 0, [], SaveError(io.saveErr.value)))
      else
        && o.todos == s.kept
        && |o.reply.notFound| == |s.left| && (forall x | x in o.reply.notFound :: x in s.left)
        && (forall x | x in s.left :: x in o.reply.notFound)
        && o.reply == BatchDeleteReply(true, BatchDeleteMessage(s.deleted, |s.left|), s.deleted, o.reply.notFound, "")
  }

  // ---------------------------------------------------------------------
  // TodoClear

  datatype ClearReply = ClearReply(success: bool, message: string, clearedCount: int, errorMessage: string)

  function Clear(todos: seq<Todo>, status: string, io: Io): (o: Outcome<ClearReply>)
    ensures o.reply.success <==> (status == "" || ValidStatus(status)) && io.loadErr.None? && io.saveErr.None?
    ensures o.reply.success && status == "" ==> o.todos == []
    ensures o.reply.success && status != "" ==> o.todos == Keep(todos, (t: Todo) => t.status != status)
    ensures o.reply.success ==> o.reply.clearedCount == |todos| - |o.todos|
    ensures !o.reply.success ==> o.todos == todos
  {
    if status != "" && !ValidStatus(status) then Outcome(todos, ClearReply(false, "", 0, StatusError))
    else if io.loadErr.Some? then Outcome(todos, ClearReply(false, "", 0, LoadError(io.loadErr.value)))
    else
      var after := if status != "" then Keep(todos, (t: Todo) => t.status != status) else [];
      var cleared := |todos| - |after|;
      if io.saveErr.Some? then Outcome(todos, ClearReply(false, "", 0, SaveError(io.saveErr.value)))
      else
        Outcome(after, ClearReply(true,
                                  if status != "" then "成功清空 " + Itoa(cleared) + " 个状态为 " + status + " 的待办事项"
                                  else "成功清空 " + Itoa(cleared) + " 个待办事项",
                                  cleared, ""))
  }

  /** Clearing one status removes exactly the todos of that status. */
  lemma ClearCountsStatus(todos: seq<Todo>, status: string, io: Io)
    requires status != "" && Clear(todos, status, io).reply.success
    ensures Clear(todos, status, io).reply.clearedCount == |Keep(todos, (t: Todo) => t.status == status)|
  {
    KeepMeaning(todos, (t: Todo) => t.status == status);
    assert Keep(todos, (t: Todo) => !(((t: Todo) => t.status == status)(t))) == Keep(todos, (t: Todo) => t.status != status) by {
      KeepSame(todos, (t: Todo) => !(((t: Todo) => t.status == status)(t)), (t: Todo) => t.status != status);
    }
  }

  lemma {:induction false} KeepSame(todos: seq<Todo>, p: Todo -> bool, q: Todo -> bool)
    requires forall t :: p(t) == q(t)
    ensures Keep(todos, p) == Keep(todos, q)
  {
    if |todos| > 0 {
      KeepSame(todos[..|todos| - 1], p, q);
    }
  }

  // ---------------------------------------------------------------------
  // The tools

  class TodoTools {
    /** The list stored in the tools' todos.json. */
    var todos: seq<Todo>

    /** NewTodoTools (InitTodoTool) on a missing file: an empty list. */
    constructor ()
      ensures todos == []
    {
      todos := [];
    }

    method TodoAdd(req: AddRequest, id: string, now: int, io: Io) returns (reply: AddReply)
      modifies this
      ensures Outcome(todos, reply) == Add(old(todos), req, id, now, io)
    {
      if req.title == "" {
        return AddReply(false, "", None, "待办事项标题不能为空");
      }
      if req.priority != "" && req.priority != "low" && req.priority != "medium" && req.priority != "high"
         && req.priority != "urgent" {
        return AddReply(false, "", None, PriorityError);
      }
      if io.loadErr.Some? {
        return AddReply(false, "", None, LoadError(io.loadErr.value));
      }
      var list := todos;
      var todo := Todo(id, req.title, req.description, "pending", req.priority, now, now, None);
      list := list + [todo];
      if io.saveErr.Some? {
        return AddReply(false, "", None, SaveError(io.saveErr.value));
      }
      todos := list;
      return AddReply(true, "待办事项已添加", Some(todo), "");
    }

    /** TodoListFunc's loop. */
    method TodoListFunc(status: string, priority: string, io: Io)
      returns (success: bool, message: string, listed: seq<Todo>, totalCount: int, errorMessage: string)
      ensures success <==> io.loadErr.None?
      ensures success ==> listed == Keep(todos, Listed(status, priority)) && totalCount == |listed|
      ensures !success ==> errorMessage == LoadError(io.loadErr.value)
    {
      if io.loadErr.Some? {
        return false, "", [], 0, LoadError(io.loadErr.value);
      }
      listed := [];
      for i := 0 to |todos|
        invariant listed == Keep(todos[..i], Listed(status, priority))
      {
        assert todos[..i + 1][..i] == todos[..i];
        var todo := todos[i];
        if status != "" && todo.status != status {
          continue;
        }
        if priority != "" && todo.priority != priority {
          continue;
        }
        listed := listed + [todo];
      }
      assert todos[..|todos|] == todos;
      message := "共有 " + Itoa(|listed|) + " 个待办事项";
      if status != "" {
        message := message + "（状态: " + status + "）";
      }
      if priority != "" {
        message := message + "（优先级: " + priority + "）";
      }
      return true, message, listed, |listed|, "";
    }

    method TodoUpdate(req: UpdateRequest, now: int, io: Io) returns (reply: UpdateReply)
      modifies this
      ensures Outcome(todos, reply) == Update(old(todos), req, now, io)
    {
      if req.id == "" {
        return UpdateReply(false, "", None, EmptyIdError);
      }
      if req.status.Some? && !ValidStatus(req.status.value) {
        return UpdateReply(false, "", None, StatusError);
      }
      if req.priority.Some? && !ValidPriority(req.priority.value) {
        return UpdateReply(false, "", None, PriorityError);
      }
      if io.loadErr.Some? {
        return UpdateReply(false, "", None, LoadError(io.loadErr.value));
      }
      var list := todos;
      var found := false;
      var i := 0;
      while i < |list|
        invariant 0 <= i <= |list| && list == todos
        invariant forall j | 0 <= j < i :: list[j].id != req.id
      {
        if list[i].id == req.id {
          found := true;
          break;
        }
        i := i + 1;
      }
      if !found {
        return UpdateReply(false, "", None, NotFoundError(req.id));
      }
      assert i == FindId(todos, req.id);
      list := list[i := Apply(list[i], req, now)];
      if io.saveErr.Some? {
        return UpdateReply(false, "", None, SaveError(io.saveErr.value));
      }
      todos := list;
      return UpdateReply(true, "待办事项已更新", Some(list[i]), "");
    }

    method TodoDelete(id: string, io: Io) returns (reply: Reply)
      modifies this
      ensures Outcome(todos, reply) == Delete(old(todos), id, io)
    {
      if id == "" {
        return Reply(false, "", EmptyIdError);
      }
      if io.loadErr.Some? {
        return Reply(false, "", LoadError(io.loadErr.value));
      }
      var found := false;
      var kept: seq<Todo> := [];
      for i := 0 to |todos|
        invariant kept == Keep(todos[..i], (t: Todo) => t.id != id)
        invariant found <==> exists j | 0 <= j < i :: todos[j].id == id
      {
        assert todos[..i + 1][..i] == todos[..i];
        if todos[i].id == id {
          found := true;
          continue;
        }
        kept := kept + [todos[i]];
      }
      assert todos[..|todos|] == todos;
      if !found {
        return Reply(false, "", NotFoundError(id));
      }
      if io.saveErr.Some? {
        return Reply(false, "", SaveError(io.saveErr.value));
      }
      todos := kept;
      return Reply(true, "待办事项已删除", "");
    }

    method TodoBatchAdd(reqs: seq<AddRequest>, idOf: nat -> string, now: int, io: Io) returns (reply: BatchAddReply)
      modifies this
      ensures Outcome(todos, reply) == BatchAdd(old(todos), reqs, idOf, now, io)
    {
      if |reqs| == 0 {
        return BatchAddReply(false, "", [], 0, "待办事项列表不能为空");
      }
      var refusal := ValidateAll(reqs);
      if refusal.Some? {
        return BatchAddReply(false, "", [], 0, refusal.value.1);
      }
      if io.loadErr.Some? {
        return BatchAddReply(false, "", [], 0, LoadError(io.loadErr.value));
      }
      var list := todos;
      var added: seq<Todo> := [];
      for i := 0 to |reqs|
        invariant added == Made(reqs[..i], idOf, now) && list == todos + added
      {
        var todo := Todo(idOf(i), reqs[i].title, reqs[i].description, "pending", reqs[i].priority, now, now, None);
        list := list + [todo];
        added := added + [todo];
      }
      assert reqs[..|reqs|] == reqs;
      if io.saveErr.Some? {
        return BatchAddReply(false, "", [], 0, SaveError(io.saveErr.value));
      }
      todos := list;
      return BatchAddReply(true, "成功添加 " + Itoa(|added|) + " 个待办事项", added, |added|, "");
    }

    method TodoBatchDelete(ids: seq<string>, io: Io) returns (reply: BatchDeleteReply)
      modifies this
      ensures BatchDeleted(old(todos), ids, io, Outcome(todos, reply))
    {
      if |ids| == 0 {
        return BatchDeleteReply(false, "", 0, [], "ID 列表不能为空");
      }
      if io.loadErr.Some? {
        return BatchDeleteReply(false, "", 0, [], LoadError(io.loadErr.value));
      }
      var idSet := IdSet(ids);
      var kept, deleted, left := SweepLoop(todos, idSet);
      var notFound := Listing(left);
      if io.saveErr.Some? {
        return BatchDeleteReply(false, "", 0, [], SaveError(io.saveErr.value));
      }
      todos := kept;
      reply := BatchDeleteReply(true, BatchDeleteMessage(deleted, |notFound|), deleted, notFound, "");
    }

    method TodoClear(status: string, io: Io) returns (reply: ClearReply)
      modifies this
      ensures Outcome(todos, reply) == Clear(old(todos), status, io)
    {
      if status != "" && !ValidStatus(status) {
        return ClearReply(false, "", 0, StatusError);
      }
      if io.loadErr.Some? {
        return ClearReply(false, "", 0, LoadError(io.loadErr.value));
      }
      var original := |todos|;
      var list: seq<Todo>;
      if status != "" {
        list := [];
        for i := 0 to |todos|
          invariant list == Keep(todos[..i], (t: Todo) => t.status != status)
        {
          assert todos[..i + 1][..i] == todos[..i];
          if todos[i].status != status {
            list := list + [todos[i]];
          }
        }
        assert todos[..|todos|] == todos;
      } else {
        list := [];
      }
      var cleared := original - |list|;
      if io.saveErr.Some? {
        return ClearReply(false, "", 0, SaveError(io.saveErr.value));
      }
      todos := list;
      var message := "成功清空 " + Itoa(cleared) + " 个待办事项";
      if status != "" {
        message := "成功清空 " + Itoa(cleared) + " 个状态为 " + status + " 的待办事项";
      }
      return ClearReply(true, message, cleared, "");
    }

    /** ClearTodoTool (tools/todo/todo.go): write an empty list. */
    method ClearTodoTool(saveErr: Option<string>) returns (err: Option<string>)
      modifies this
      ensures saveErr.None? ==> todos == [] && err.None?
      ensures saveErr.Some? ==> todos == old(todos) && err == Some("无法清空待办列表文件: " + saveErr.value)
    {
      if saveErr.Some? {
        return Some("无法清空待办列表文件: " + saveErr.value);
      }
      todos := [];
      return None;
    }
  }

  /** The validating loop of TodoBatchAdd. */
  method ValidateAll(reqs: seq<AddRequest>) returns (r: Option<(nat, string)>)
    ensures r == FirstRefusal(reqs)
  {
    for i := 0 to |reqs|
      invariant FirstRefusal(reqs) == RefusalFrom(reqs, i)
    {
      if reqs[i].title == "" {
        return Some((i, "第 " + Itoa(i + 1) + " 个待办事项标题不能为空"));
      }
      if reqs[i].priority != "" && !ValidPriority(reqs[i].priority) {
        return Some((i, "第 " + Itoa(i + 1) + " 个待办事项优先级必须是 low, medium, high 或 urgent 之一"));
      }
    }
    return None;
  }

  method IdSet(ids: seq<string>) returns (s: set<string>)
    ensures s == set i | 0 <= i < |ids| :: ids[i]
  {
    s := {};
    for i := 0 to |ids|
      invariant s == set j | 0 <= j < i :: ids[j]
    {
      s := s + {ids[i]};
    }
  }

  /** The deleting loop of TodoBatchDelete. */
  method SweepLoop(todos: seq<Todo>, ids: set<string>) returns (kept: seq<Todo>, deleted: nat, left: set<string>)
    ensures Swept(kept, deleted, left) == Sweep(todos, ids)
  {
    kept, deleted, left := [], 0, ids;
    for i := 0 to |todos|
      invariant Swept(kept, deleted, left) == Sweep(todos[..i], ids)
    {
      assert todos[..i + 1][..i] == todos[..i];
      if todos[i].id in left {
        deleted := deleted + 1;
        left := left - {todos[i].id};
      } else {
        kept := kept + [todos[i]];
      }
    }
    assert todos[..|todos|] == todos;
  }

  /** The IDs of a set, each once, in map order. */
  method Listing(s: set<string>) returns (r: seq<string>)
    ensures |r| == |s| && (forall x | x in r :: x in s) && (forall x | x in s :: x in r)
  {
    r := [];
    var rest := s;
    while rest != {}
      invariant rest <= s && |r| + |rest| == |s|
      invariant forall x | x in r :: x in s && x !in rest
      invariant forall x | x in s :: x in r || x in rest
      decreases |rest|
    {
      var x :| x in rest;
      r := r + [x];
      rest := rest - {x};
    }
  }
}

/**
 * The task handlers. Every per-task operation is keyed by the task id together with
 * the caller's id, so a caller only ever sees, changes or removes their own tasks;
 * the administrators' listing filters by a whitelist of query keys and pages with
 * `offset` and `limit`.
 */
module TaskController {
  import opened Wrappers
  import opened Primitives
  import opened Errors
  import opened UserModel
  import opened TaskModel

  const Missing := "Missing task or unauthorized access"

  /**
   * `createTask`: the body's fields with `owner` overwritten by the caller's id, saved
   * as a new task. Whatever owner the body names, the task belongs to the caller.
   */
  method CreateTask(tasks: TaskCollection, caller: User, body: Body, newId: string) returns (r: Result<Task, Fault>)
    requires tasks.Valid()
    modifies tasks
    ensures tasks.Valid()
    ensures var fields := body["owner" := Str(caller.id)];
      && (r.Ok? <==> TaskMessages(fields) == [] && TaskModel.IdIndex(old(tasks.tasks), newId).None?)
      && (r.Ok? ==> r.value == NewTask(newId, fields) && tasks.tasks == old(tasks.tasks) + [r.value])
    ensures r.Ok? ==> r.value.owner == caller.id && r.value.id == newId
    ensures r.Ok? && "completed" !in body ==> !r.value.completed
    ensures r.Err? ==> tasks.tasks == old(tasks.tasks) && Respond(r.error).statusCode == 400
  {
    var fields := body["owner" := Str(caller.id)];
    r := tasks.Insert(newId, fields);
  }

  /** `getTaskById`: the caller's task with this id, else a 404 that does not say which check failed. */
  function GetTaskById(tasks: seq<Task>, caller: User, id: string): (r: Result<Task, Fault>)
    ensures r.Ok? <==> exists i :: 0 <= i < |tasks| && tasks[i].id == id && tasks[i].owner == caller.id
    ensures r.Ok? ==> r.value in tasks && r.value.id == id && r.value.owner == caller.id
    ensures r.Err? ==> r.error == AppError(Missing, 404)
  {
    match KeyIndex(tasks, id, caller.id)
    case None => Err(AppError(Missing, 404))
    case Some(i) => Ok(tasks[i])
  }

  /** The keys `updateTaskById` accepts. */
  predicate UpdatableTaskKeys(body: Body) {
    forall k :: k in body ==> k in {"description", "completed"}
  }

  /**
   * `updateTaskById`: a body with any other key is a 400 before anything is read; then
   * the update is cast and validated; then only the caller's task with this id is
   * changed, and its absence is a 404.
   */
  method UpdateTaskById(tasks: TaskCollection, caller: User, id: string, body: Body) returns (r: Result<Task, Fault>)
    requires tasks.Valid()
    modifies tasks
    ensures tasks.Valid()
    ensures !UpdatableTaskKeys(body) ==> r == Err(AppError("Invalid Updates.", 400))
    ensures r.Err? ==> tasks.tasks == old(tasks.tasks)
    ensures r.Ok? <==>
      UpdatableTaskKeys(body) && UpdateError(body).None? && KeyIndex(old(tasks.tasks), id, caller.id).Some?
    ensures UpdatableTaskKeys(body) && UpdateError(body).Some? ==>
      r == Err(UpdateError(body).value) && Respond(r.error).statusCode == 400
    ensures UpdatableTaskKeys(body) && UpdateError(body).None? && KeyIndex(old(tasks.tasks), id, caller.id).None? ==>
      r == Err(AppError(Missing, 404))
    ensures r.Ok? ==>
      && UpdatableTaskKeys(body) && UpdateError(body).None? && KeyIndex(old(tasks.tasks), id, caller.id).Some?
      && var i := KeyIndex(old(tasks.tasks), id, caller.id).value;
         && r.value == Patched(old(tasks.tasks)[i], body)
         && r.value.id == id && r.value.owner == caller.id
         && tasks.tasks == old(tasks.tasks)[i := r.value]
  {
    if !UpdatableTaskKeys(body) {
      return Err(AppError("Invalid Updates.", 400));
    }
    var found := tasks.FindOneAndUpdate(id, caller.id, body);
    if found.Err? {
      return Err(found.error);
    }
    if found.value.None? {
      return Err(AppError(Missing, 404));
    }
    r := Ok(found.value.value);
  }

  /** `deleteTaskById`: only the caller's task with this id is removed and returned; otherwise a 404. */
  method DeleteTaskById(tasks: TaskCollection, caller: User, id: string) returns (r: Result<Task, Fault>)
    requires tasks.Valid()
    modifies tasks
    ensures tasks.Valid()
    ensures match KeyIndex(old(tasks.tasks), id, caller.id)
      case None => r == Err(AppError(Missing, 404)) && tasks.tasks == old(tasks.tasks)
      case Some(i) =>
        && r == Ok(old(tasks.tasks)[i]) && r.value.id == id && r.value.owner == caller.id
        && tasks.tasks == Removed(old(tasks.tasks), i)
  {
    var removed := tasks.FindOneAndDelete(id, caller.id);
    if removed.None? {
      return Err(AppError(Missing, 404));
    }
    r := Ok(removed.value);
  }

  /**
   * `getUserTasks`: the `tasks` virtual of the caller, every task it owns; that they
   * come in store order is stated by `OwnTasksAreOwnerListing`, through the listing's window.
   */
  function GetUserTasks(tasks: seq<Task>, caller: User): (r: seq<Task>)
    ensures forall t :: t in r <==> t in tasks && t.owner == caller.id
  {
    Select(tasks, (t: Task) => t.owner == caller.id)
  }

  /** A query parameter, if given. */
  function Param(query: map<string, string>, key: string): Option<string> {
    if key in query then Some(query[key]) else None
  }

  /** A task passes the `completed` and `owner` filters (an absent filter passes everything). */
  predicate Passes(t: Task, completed: Option<bool>, owner: Option<string>) {
    (completed.None? || t.completed == completed.value) && (owner.None? || t.owner == owner.value)
  }

  function Matching(tasks: seq<Task>, completed: Option<bool>, owner: Option<string>): seq<Task> {
    Select(tasks, (t: Task) => Passes(t, completed, owner))
  }

  function Abs(n: int): nat {
    if n < 0 then -n else n
  }

  function Min(a: int, b: int): int {
    if a < b then a else b
  }

  /**
   * What `skip(offset)` then `limit(limit)` leave of a result `m`: the contiguous run of
   * it starting at `offset`, of |`limit`| elements or as many as remain, or everything
   * from `offset` on when `limit` is 0 (a negative limit bounds the run by its absolute value).
   */
  predicate Window(p: seq<Task>, m: seq<Task>, offset: nat, limit: int) {
    && |p| == (if limit == 0 then |m| - Min(offset, |m|) else Min(Abs(limit), |m| - Min(offset, |m|)))
    && p == m[Min(offset, |m|)..Min(offset, |m|) + |p|]
  }

  /** `skip(offset)` then `limit(limit)` on a result. */
  function Page(m: seq<Task>, offset: nat, limit: int): (p: seq<Task>)
    ensures Window(p, m, offset, limit)
  {
    var rest := m[Min(offset, |m|)..];
    if limit == 0 then rest else rest[..Min(Abs(limit), |rest|)]
  }

  /** The `completed` filter, cast to a Boolean (None when absent or not castable). */
  function CompletedFilter(query: map<string, string>): Option<bool> {
    if "completed" in query then CastBoolean(Str(query["completed"])) else None
  }

  /**
   * The admin listing at the level of the database: the tasks passing the two
   * whitelisted filters, in store order, skipping `offset` of them and then keeping at
   * most |`limit`| (all when `limit` is 0). A `completed` filter that is not a Boolean
   * is a cast error (400); a negative `offset` is refused by the server (500).
   */
  function ListTasks(tasks: seq<Task>, query: map<string, string>): (r: Result<seq<Task>, Fault>)
    ensures r.Ok? <==>
      !("completed" in query && CastBoolean(Str(query["completed"])).None?) && ParseIntOr0(Param(query, "offset")) >= 0
    ensures "completed" in query && CastBoolean(Str(query["completed"])).None? ==>
      r == Err(CastFailure("completed", query["completed"]))
    ensures r.Err? ==>
      || r.error.name == CastError
      || (ParseIntOr0(Param(query, "offset")) < 0 && r.error.name == OtherError && r.error.code == None && !r.error.isOperational)
    ensures r.Ok? ==>
      var m := Matching(tasks, CompletedFilter(query), Param(query, "owner"));
      var offset := ParseIntOr0(Param(query, "offset"));
      var limit := ParseIntOr0(Param(query, "limit"));
      && 0 <= offset
      && (forall t :: t in r.value ==> t in tasks && Passes(t, CompletedFilter(query), Param(query, "owner")))
      && Window(r.value, m, offset, limit)
  {
    if "completed" in query && CastBoolean(Str(query["completed"])).None? then
      Err(CastFailure("completed", query["completed"]))
    else
      var offset := ParseIntOr0(Param(query, "offset"));
      if offset < 0 then
        Err(LibraryError(OtherError, "Skip value must be non-negative, but received: " + Decimal(-offset)))
      else
        var m := Matching(tasks, CompletedFilter(query), Param(query, "owner"));
        var p := Page(m, offset, ParseIntOr0(Param(query, "limit")));
        assert forall t :: t in p ==> t in m;
        Ok(p)
  }

  /** A refused listing reaches the client as a 400 (bad filter) or a 500 (negative offset). */
  lemma ListingRefusalStatus(tasks: seq<Task>, query: map<string, string>)
    ensures ListTasks(tasks, query).Err? ==> Respond(ListTasks(tasks, query).error).statusCode in {400, 500}
  {
  }

  /**
   * `getAllTasks` as written: the query is copied, the filter keeps only the
   * whitelisted keys, then `find`, `skip` and `limit` are applied to the query in turn.
   */
  method GetAllTasks(tasks: TaskCollection, query: map<string, string>) returns (r: Result<seq<Task>, Fault>)
    ensures r == ListTasks(tasks.tasks, query)
  {
    var filters := query;
    var findFilters := map k | k in filters && k in {"completed", "owner"} :: filters[k];
    var completed: Option<bool> := None;
    if "completed" in findFilters {
      completed := CastBoolean(Str(findFilters["completed"]));
      if completed.None? {
        return Err(CastFailure("completed", findFilters["completed"]));
      }
    }
    var found := Matching(tasks.tasks, completed, Param(findFilters, "owner"));
    var skip := ParseIntOr0(Param(filters, "offset"));
    if skip < 0 {
      return Err(LibraryError(OtherError, "Skip value must be non-negative, but received: " + Decimal(-skip)));
    }
    found := found[Min(skip, |found|)..];
    var limit := ParseIntOr0(Param(filters, "limit"));
    if limit != 0 {
      found := found[..Min(Abs(limit), |found|)];
    }
    r := Ok(found);
  }

  /** Query keys other than the two filters and the two paging parameters change nothing. */
  lemma OtherQueryKeysIgnored(tasks: seq<Task>, query: map<string, string>)
    ensures ListTasks(tasks, query) ==
      ListTasks(tasks, map k | k in query && k in {"completed", "owner", "offset", "limit"} :: query[k])
  {
    var kept := map k | k in query && k in {"completed", "owner", "offset", "limit"} :: query[k];
    assert Param(kept, "completed") == Param(query, "completed");
    assert Param(kept, "owner") == Param(query, "owner");
    assert Param(kept, "offset") == Param(query, "offset");
    assert Param(kept, "limit") == Param(query, "limit");
    assert CompletedFilter(kept) == CompletedFilter(query);
  }

  /** With no query at all, the listing is the whole collection, in store order. */
  lemma {:induction false} EmptyQueryListsAll(tasks: seq<Task>)
    ensures ListTasks(tasks, map[]) == Ok(tasks)
  {
    SelectAll(tasks, (t: Task) => Passes(t, None, None));
  }

  /** The caller's own list is the admin listing filtered by the caller as owner, unpaged. */
  lemma {:induction false} OwnTasksAreOwnerListing(tasks: seq<Task>, caller: User)
    ensures ListTasks(tasks, map["owner" := caller.id]) == Ok(GetUserTasks(tasks, caller))
  {
    SelectSame(tasks, (t: Task) => Passes(t, None, Some(caller.id)), (t: Task) => t.owner == caller.id);
  }
}

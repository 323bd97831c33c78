/**
 * The task record, its schema (a trimmed, required description; `completed` defaulting
 * to false; a required owner) and the three writes the handlers make to the `tasks`
 * collection.
 */
module TaskModel {
  import opened Wrappers
  import opened Primitives
  import opened Errors

  datatype Task = Task(id: string, description: string, completed: bool, owner: string)

  /** The `description` setter: cast to a string and trimmed; missing is the empty string. */
  function DescriptionFrom(v: Option<Value>): string {
    if v.None? then "" else Trim(AsText(v.value))
  }

  /** The `completed` path: false when not supplied, else the Boolean cast (None if it fails). */
  function CompletedFrom(v: Option<Value>): Option<bool> {
    if v.None? then Some(false) else CastBoolean(v.value)
  }

  /** The validation message of a value at `path` that does not cast to a Boolean. */
  function BooleanCastMessage(value: string, path: string): string {
    "Cast to Boolean failed for value \"" + value + "\" at path \"" + path + "\""
  }

  /** The messages of the validators that fail on a task built from `fields`, in path order. */
  function TaskMessages(fields: Body): (msgs: seq<string>)
    ensures msgs == [] <==>
      DescriptionFrom(Field(fields, "description")) != ""
      && CompletedFrom(Field(fields, "completed")).Some?
      && "owner" in fields
  {
    var description := if DescriptionFrom(Field(fields, "description")) == "" then ["Path `description` is required."] else [];
    var completed :=
      if CompletedFrom(Field(fields, "completed")).None? then [BooleanCastMessage(AsText(fields["completed"]), "completed")] else [];
    var owner := if "owner" !in fields then ["Path `owner` is required."] else [];
    assert |description + completed + owner| == |description| + |completed| + |owner|;
    description + completed + owner
  }

  /** `new Task(fields)` for fields that pass validation. */
  function NewTask(id: string, fields: Body): (t: Task)
    requires TaskMessages(fields) == []
    ensures Described(t)
    ensures t.id == id && "description" in fields && t.description == Trim(AsText(fields["description"]))
    ensures "completed" in fields ==> CastBoolean(fields["completed"]) == Some(t.completed)
    ensures "completed" !in fields ==> !t.completed
    ensures t.owner == AsText(fields["owner"])
  {
    TrimIdempotent(AsText(Field(fields, "description").GetOr(Str(""))));
    Task(id,
         DescriptionFrom(Field(fields, "description")),
         CompletedFrom(Field(fields, "completed")).value,
         AsText(fields["owner"]))
  }

  /** The filter `{_id: id, owner: owner}` every per-task handler uses. */
  predicate Keyed(t: Task, id: string, owner: string) {
    t.id == id && t.owner == owner
  }

  /** Where the task with this id sits in the collection. */
  function IdIndex(tasks: seq<Task>, id: string): Option<nat> {
    FirstIndex(tasks, (t: Task) => t.id == id)
  }

  /** The first task that filter matches. */
  function KeyIndex(tasks: seq<Task>, id: string, owner: string): Option<nat> {
    FirstIndex(tasks, (t: Task) => Keyed(t, id, owner))
  }

  /** What the schema guarantees of a stored task: a trimmed, non-empty description. */
  predicate Described(t: Task) {
    t.description != "" && Trim(t.description) == t.description
  }

  /** The collection's invariant: unique ids, and every task as the schema guarantees. */
  ghost predicate ValidTasks(tasks: seq<Task>) {
    && (forall i, j :: 0 <= i < j < |tasks| ==> tasks[i].id != tasks[j].id)
    && (forall i :: 0 <= i < |tasks| ==> Described(tasks[i]))
  }

  /** Appending a task with a new id and a schema-conforming description keeps the invariant. */
  lemma AppendKeepsValid(tasks: seq<Task>, t: Task)
    requires ValidTasks(tasks) && Described(t) && IdIndex(tasks, t.id).None?
    ensures ValidTasks(tasks + [t])
  {
  }

  /** Replacing a task by one with the same id and a conforming description keeps the invariant. */
  lemma ReplaceKeepsValid(tasks: seq<Task>, k: nat, t: Task)
    requires ValidTasks(tasks) && k < |tasks| && Described(t) && t.id == tasks[k].id
    ensures ValidTasks(tasks[k := t])
  {
  }

  /** The collection without the task at `k`, the others in their order. */
  function Removed(tasks: seq<Task>, k: nat): (rest: seq<Task>)
    requires k < |tasks|
    ensures |rest| == |tasks| - 1
    ensures forall i :: 0 <= i < |rest| ==> rest[i] == if i < k then tasks[i] else tasks[i + 1]
  {
    tasks[..k] + tasks[k + 1..]
  }

  /** Removing one task keeps the invariant. */
  lemma RemoveKeepsValid(tasks: seq<Task>, k: nat)
    requires ValidTasks(tasks) && k < |tasks|
    ensures ValidTasks(Removed(tasks, k))
  {
  }

  /** The changes an accepted update makes: each path present in the update is replaced. */
  function Patched(t: Task, update: Body): Task
    requires "completed" in update ==> CastBoolean(update["completed"]).Some?
  {
    t.(description := if "description" in update then DescriptionFrom(Some(update["description"])) else t.description,
       completed := if "completed" in update then CastBoolean(update["completed"]).value else t.completed)
  }

  /** Why an update is refused before the query runs: a failed cast, then a failed validator. */
  function UpdateError(update: Body): (e: Option<Fault>)
    ensures e.None? <==>
      ("completed" in update ==> CastBoolean(update["completed"]).Some?)
      && ("description" in update ==> Trim(AsText(update["description"])) != "")
    ensures e.Some? ==> Respond(e.value).statusCode == 400
  {
    DatabaseRejectionsAre400("Validation", ["Path `description` is required."], "completed",
      if "completed" in update then AsText(update["completed"]) else "", "");
    if "completed" in update && CastBoolean(update["completed"]).None? then
      Some(CastFailure("completed", AsText(update["completed"])))
    else if "description" in update && DescriptionFrom(Some(update["description"])) == "" then
      Some(ValidationFailure("Validation", ["Path `description` is required."]))
    else None
  }

  /** The `tasks` collection. */
  class TaskCollection {
    var tasks: seq<Task>

    ghost predicate Valid()
      reads this
    {
      ValidTasks(tasks)
    }

    constructor ()
      ensures Valid() && tasks == []
    {
      tasks := [];
    }

    /** `new Task(fields).save()`: validation, then an insert the `_id` index may refuse. */
    method Insert(id: string, fields: Body) returns (r: Result<Task, Fault>)
      requires Valid()
      modifies this
      ensures Valid()
      ensures r.Ok? <==> TaskMessages(fields) == [] && IdIndex(old(tasks), id).None?
      ensures r.Ok? ==> r.value == NewTask(id, fields) && tasks == old(tasks) + [r.value]
      ensures r.Err? ==> tasks == old(tasks) && Respond(r.error).statusCode == 400
    {
      var msgs := TaskMessages(fields);
      if msgs != [] {
        r := Err(ValidationFailure("task", msgs));
        DatabaseRejectionsAre400("task", msgs, "", "", "");
        return;
      }
      var t := NewTask(id, fields);
      var clash := IdIndex(tasks, id);
      if clash.Some? {
        var message := DupKeyMessage("tasks", "_id_", "_id", id);
        r := Err(DuplicateKeyError(message));
        DatabaseRejectionsAre400("", [], "", "", message);
        return;
      }
      AppendKeepsValid(tasks, t);
      tasks := tasks + [t];
      r := Ok(t);
    }

    /**
     * `Task.findOneAndUpdate({_id: id, owner}, update, {new: true, runValidators: true})`:
     * the update is cast and validated first; then the first task matching both keys,
     * if any, is changed and returned as changed.
     */
    method FindOneAndUpdate(id: string, owner: string, update: Body) returns (r: Result<Option<Task>, Fault>)
      requires Valid()
      modifies this
      ensures Valid()
      ensures UpdateError(update).Some? ==> r == Err(UpdateError(update).value) && tasks == old(tasks)
      ensures UpdateError(update).None? ==> r.Ok? && match KeyIndex(old(tasks), id, owner)
        case None => r.value == None && tasks == old(tasks)
        case Some(i) => r.value == Some(Patched(old(tasks)[i], update)) && tasks == old(tasks)[i := r.value.value]
    {
      var e := UpdateError(update);
      if e.Some? {
        return Err(e.value);
      }
      var at := KeyIndex(tasks, id, owner);
      if at.None? {
        return Ok(None);
      }
      var t := Patched(tasks[at.value], update);
      if "description" in update {
        TrimIdempotent(AsText(update["description"]));
      }
      assert Described(t);
      ReplaceKeepsValid(tasks, at.value, t);
      tasks := tasks[at.value := t];
      r := Ok(Some(t));
    }

    /** `Task.findOneAndDelete({_id: id, owner})`: the first task matching both keys is removed and returned. */
    method FindOneAndDelete(id: string, owner: string) returns (r: Option<Task>)
      requires Valid()
      modifies this
      ensures Valid()
      ensures match KeyIndex(old(tasks), id, owner)
        case None => r == None && tasks == old(tasks)
        case Some(i) => r == Some(old(tasks)[i]) && tasks == Removed(old(tasks), i)
    {
      var at := KeyIndex(tasks, id, owner);
      if at.None? {
        return None;
      }
      r := Some(tasks[at.value]);
      RemoveKeepsValid(tasks, at.value);
      tasks := Removed(tasks, at.value);
    }
  }
}

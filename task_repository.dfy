/** `TaskRepository`: creating a task is `Persist.SaveNewTask`; updating one
    overwrites each named field of the instance in turn (`setattr`) and
    saves it; the owner-scoped comment query is the one of
    `CommentRepository`. */
module TaskRepository {
  import opened Base
  import opened Models
  import opened Store
  import Persist

  /** The writable columns of a task. */
  datatype FieldName = TitleField | DescriptionField | StatusField | PriorityField
                     | AssignedToField | DueDateField | ProjectField | CreatedByField

  /** One `key=value` keyword argument of `update_task`. */
  datatype FieldUpdate =
    | SetTitle(title: string)
    | SetDescription(description: string)
    | SetStatus(status: TaskStatus)
    | SetPriority(priority: Priority)
    | SetAssignedTo(assignedTo: Option<Pk>)
    | SetDueDate(dueDate: nat)
    | SetProject(project: Pk)
    | SetCreatedBy(createdBy: Option<Pk>)

  function Name(u: FieldUpdate): FieldName
  {
    match u
    case SetTitle(_) => TitleField
    case SetDescription(_) => DescriptionField
    case SetStatus(_) => StatusField
    case SetPriority(_) => PriorityField
    case SetAssignedTo(_) => AssignedToField
    case SetDueDate(_) => DueDateField
    case SetProject(_) => ProjectField
    case SetCreatedBy(_) => CreatedByField
  }

  /** Whether `task` already holds the value that `u` writes. */
  predicate Holds(task: Task, u: FieldUpdate)
  {
    match u
    case SetTitle(x) => task.title == x
    case SetDescription(x) => task.description == x
    case SetStatus(x) => task.status == x
    case SetPriority(x) => task.priority == x
    case SetAssignedTo(x) => task.assignedTo == x
    case SetDueDate(x) => task.dueDate == x
    case SetProject(x) => task.project == x
    case SetCreatedBy(x) => task.createdBy == x
  }

  /** `setattr(task, key, value)`: afterwards the task holds the value, its
      key and every other field are as before, and writing a value the task
      already holds changes nothing. */
  function Apply(task: Task, u: FieldUpdate): (r: Task)
    ensures Holds(r, u) && r.id == task.id
    ensures forall v :: Name(v) != Name(u) ==> (Holds(r, v) <==> Holds(task, v))
    ensures Holds(task, u) ==> r == task
  {
    match u
    case SetTitle(x) => task.(title := x)
    case SetDescription(x) => task.(description := x)
    case SetStatus(x) => task.(status := x)
    case SetPriority(x) => task.(priority := x)
    case SetAssignedTo(x) => task.(assignedTo := x)
    case SetDueDate(x) => task.(dueDate := x)
    case SetProject(x) => task.(project := x)
    case SetCreatedBy(x) => task.(createdBy := x)
  }

  /** No later keyword names the same field as `kwargs[i]`. */
  predicate LastOfItsName(kwargs: seq<FieldUpdate>, i: int)
    requires 0 <= i < |kwargs|
  {
    forall j :: i < j < |kwargs| ==> Name(kwargs[j]) != Name(kwargs[i])
  }

  /** The keywords of a dictionary: no field is named twice. */
  predicate DistinctNames(kwargs: seq<FieldUpdate>)
  {
    forall i, j :: 0 <= i < j < |kwargs| ==> Name(kwargs[i]) != Name(kwargs[j])
  }

  /** The task after the `setattr` loop over `kwargs`, in order. The last
      value written to a field is the one it keeps; a field no keyword names
      keeps its value; the key never changes. */
  function ApplyAll(task: Task, kwargs: seq<FieldUpdate>): (r: Task)
    ensures r.id == task.id
    ensures forall i :: 0 <= i < |kwargs| && LastOfItsName(kwargs, i) ==> Holds(r, kwargs[i])
    ensures forall v :: (forall u :: u in kwargs ==> Name(u) != Name(v)) ==> (Holds(r, v) <==> Holds(task, v))
  {
    if kwargs == [] then task
    else
      var init, last := kwargs[..|kwargs| - 1], kwargs[|kwargs| - 1];
      assert kwargs == init + [last];
      var prev := ApplyAll(task, init);
      ApplyLastWinners(init, last, prev);
      ApplyLastFrame(task, init, last, prev);
      Apply(prev, last)
  }

  /** The step of `ApplyAll` for the fields written: a keyword that is the
      last of its name in `init + [last]` holds after `last` is applied. */
  lemma ApplyLastWinners(init: seq<FieldUpdate>, last: FieldUpdate, prev: Task)
    requires forall i :: 0 <= i < |init| && LastOfItsName(init, i) ==> Holds(prev, init[i])
    ensures var kwargs := init + [last];
            forall i :: 0 <= i < |kwargs| && LastOfItsName(kwargs, i) ==> Holds(Apply(prev, last), kwargs[i])
  {
    var kwargs, r := init + [last], Apply(prev, last);
    forall i | 0 <= i < |kwargs| && LastOfItsName(kwargs, i)
      ensures Holds(r, kwargs[i])
    {
      if i < |init| {
        assert kwargs[i] == init[i] && kwargs[|init|] == last;
        assert Name(last) != Name(init[i]);
        assert forall j :: i < j < |init| ==> kwargs[j] == init[j];
        assert LastOfItsName(init, i);
      }
    }
  }

  /** The step of `ApplyAll` for the fields not written. */
  lemma ApplyLastFrame(task: Task, init: seq<FieldUpdate>, last: FieldUpdate, prev: Task)
    requires forall v :: (forall u :: u in init ==> Name(u) != Name(v)) ==> (Holds(prev, v) <==> Holds(task, v))
    ensures var kwargs := init + [last];
            forall v :: (forall u :: u in kwargs ==> Name(u) != Name(v)) ==> (Holds(Apply(prev, last), v) <==> Holds(task, v))
  {
    var kwargs, r := init + [last], Apply(prev, last);
    forall v | forall u :: u in kwargs ==> Name(u) != Name(v)
      ensures Holds(r, v) <==> Holds(task, v)
    {
      assert last in kwargs;
      assert forall u :: u in init ==> u in kwargs;
    }
  }

  /** With distinct keywords, as a dictionary has, every named field ends
      up with its keyword's value. */
  lemma {:induction false} EveryNamedFieldSet(task: Task, kwargs: seq<FieldUpdate>)
    requires DistinctNames(kwargs)
    ensures forall u :: u in kwargs ==> Holds(ApplyAll(task, kwargs), u)
  {
    forall u | u in kwargs
      ensures Holds(ApplyAll(task, kwargs), u)
    {
      var i :| 0 <= i < |kwargs| && kwargs[i] == u;
      assert LastOfItsName(kwargs, i);
    }
  }

  /** Writing values the task already holds leaves it unchanged; in
      particular an update with no keywords is the identity. */
  lemma {:induction false} ApplyAllHolding(task: Task, kwargs: seq<FieldUpdate>)
    requires forall u :: u in kwargs ==> Holds(task, u)
    ensures ApplyAll(task, kwargs) == task
  {
    if kwargs != [] {
      ApplyAllHolding(task, kwargs[..|kwargs| - 1]);
      assert kwargs[|kwargs| - 1] in kwargs;
    }
  }

  /** Repeating an update changes nothing more. */
  lemma UpdateIdempotent(task: Task, kwargs: seq<FieldUpdate>)
    requires DistinctNames(kwargs)
    ensures ApplyAll(ApplyAll(task, kwargs), kwargs) == ApplyAll(task, kwargs)
  {
    EveryNamedFieldSet(task, kwargs);
    ApplyAllHolding(ApplyAll(task, kwargs), kwargs);
  }

  /** `update_task(task, **kwargs)`: the `setattr` loop, then `task.save()`.
      The instance returned is the one given, carrying the new values; an
      exception from the save propagates. */
  method UpdateTask(db: Database, task: Task, kwargs: seq<FieldUpdate>) returns (r: Result<Task, Persist.SaveError>)
    requires db.Valid() && task.id < db.nextId
    modifies db
    ensures db.Valid()
    ensures r.Success? ==> r.value == ApplyAll(task, kwargs)
    ensures Persist.SavedTask(db, ApplyAll(task, kwargs), if r.Success? then Success(()) else Failure(r.error))
  {
    var updated := task;
    for i := 0 to |kwargs|
      invariant updated == ApplyAll(task, kwargs[..i])
    {
      assert kwargs[..i + 1][..i] == kwargs[..i];
      updated := Apply(updated, kwargs[i]);
    }
    assert kwargs[..|kwargs|] == kwargs;
    var saved := Persist.SaveTask(db, updated);
    r := if saved.Success? then Success(updated) else Failure(saved.error);
  }
}

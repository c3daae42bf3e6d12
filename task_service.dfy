/** `TaskService`: creating a task (with the default assignee, an in-app
    notification and an e-mail job), guarding updates, and the cached
    comment listing. */
module TaskService {
  import opened Base
  import opened Models
  import opened Store
  import PS = ProjectSignals
  import NS = NotificationSignals
  import Persist
  import TR = TaskRepository
  import CS = CommentService
  import opened Cache

  // ---------------------------------------------------------------- the e-mail queue

  /** A queued `send_task_assignment_email(task_id, email)` job. */
  datatype EmailJob = EmailJob(taskId: Pk, email: string)

  /** The task queue behind `.delay(...)`. Publishing fails, with an
      exception, when the broker cannot be reached (`brokerUp` is false). */
  class EmailQueue {
    var jobs: seq<EmailJob>

    constructor ()
      ensures jobs == []
    {
      jobs := [];
    }

    method Delay(taskId: Pk, email: string, brokerUp: bool) returns (ok: bool)
      modifies this
      ensures ok == brokerUp
      ensures jobs == old(jobs) + (if ok then [EmailJob(taskId, email)] else [])
    {
      ok := brokerUp;
      if ok {
        jobs := jobs + [EmailJob(taskId, email)];
      }
    }
  }

  // ---------------------------------------------------------------- create_task

  /** The validated payload of a creation request. `assignedTo` is `None`
      when the key is absent and `Some(None)` for an explicit null;
      `created_by` is read-only and never present. */
  datatype TaskData = TaskData(
    project: Pk, title: string, description: Option<string>,
    status: Option<TaskStatus>, priority: Option<Priority>,
    assignedTo: Option<Option<Pk>>, dueDate: nat)

  datatype ServiceError =
    | CreateFailed                           // "Failed to create task. Please try again."
    | InvalidTaskStatus
    | PermissionDenied                       // "You can't reassign tasks to others."
    | SaveFailed(cause: Persist.SaveError)   // raised by the save and not caught

  /** The service's own notice to the assignee. */
  function AssignedNoticeMessage(title: string): string
  {
    "You have been assigned to task '" + title + "'"
  }

  /** `validated_data.get("assigned_to") or request.user`. */
  function DefaultAssignee(data: TaskData, requester: Pk): Pk
  {
    if data.assignedTo.Some? && data.assignedTo.value.Some? then data.assignedTo.value.value else requester
  }

  /** A call that passes a keyword twice raises `TypeError`. */
  datatype CallError = DuplicateKeyword

  /** The keyword arguments of `TaskRepository.create_task` as the service
      writes them: `assigned_to` and `created_by` are passed explicitly and
      then the whole payload again, so a payload that holds an
      `assigned_to` key (even a null one) names that keyword twice. */
  function CreateKwargsAsWritten(data: TaskData, requester: Pk): (r: Result<TaskFields, CallError>)
    ensures r.Failure? <==> data.assignedTo.Some?
    ensures r.Success? ==> r.value.assignedTo == Some(requester) && r.value.createdBy == Some(requester)
  {
    if data.assignedTo.Some? then Failure(DuplicateKeyword)
    else Success(TaskFields(data.project, data.title, data.description, data.status, data.priority,
                            Some(DefaultAssignee(data, requester)), data.dueDate, Some(requester)))
  }

  /** The creation arguments the service evidently means: the supplied
      assignee when one is given and truthy, the requester otherwise; the
      requester as creator; every other field from the payload. */
  function CreateKwargs(data: TaskData, requester: Pk): (r: TaskFields)
    ensures r.createdBy == Some(requester)
    ensures forall u :: data.assignedTo == Some(Some(u)) ==> r.assignedTo == Some(u)
    ensures data.assignedTo == None || data.assignedTo == Some(None) ==> r.assignedTo == Some(requester)
    ensures r.project == data.project && r.title == data.title && r.description == data.description
    ensures r.status == data.status && r.priority == data.priority && r.dueDate == data.dueDate
  {
    TaskFields(data.project, data.title, data.description, data.status, data.priority,
               Some(DefaultAssignee(data, requester)), data.dueDate, Some(requester))
  }

  /** The two agree exactly when the payload has no `assigned_to` key; a
      payload naming an assignee `u` fails as written, where the intended
      arguments assign `u`. */
  lemma AsWrittenRejectsSuppliedAssignee(data: TaskData, requester: Pk)
    ensures data.assignedTo.None? ==> CreateKwargsAsWritten(data, requester) == Success(CreateKwargs(data, requester))
    ensures data.assignedTo.Some? ==> CreateKwargsAsWritten(data, requester) == Failure(DuplicateKeyword)
    ensures forall u :: data.assignedTo == Some(Some(u)) ==>
              CreateKwargs(data, requester).assignedTo == Some(u)
  {
  }

  /** The outcome of `create_task` with the intended arguments: a task
      whose references are missing is refused and nothing is written;
      otherwise the task (and whatever its post-save receivers write), then
      one notice to the assignee, then one e-mail job, and the generic
      creation error when the job cannot be queued. */
  twostate predicate TaskCreated(db: Database, queue: EmailQueue, data: TaskData, requester: Pk, brokerUp: bool,
                                 new r: Result<Pk, ServiceError>)
    reads db, queue
  {
    var f := CreateKwargs(data, requester);
    var row := NewTask(old(db.nextId), f);
    if !TaskRefsOk(old(db.tables), row) then
      && r == Failure(CreateFailed) && queue.jobs == old(queue.jobs)
      && db.tables == old(db.tables) && db.nextId == old(db.nextId)
    else
      var assignee := f.assignedTo.value;
      var o := Persist.TaskPostSave(db.wiring, PS.PreImage(None, None), row, true,
                                    old(db.tables.projects[f.project].owner), old(db.tables.users.Keys));
      && o.ok
      && Extends(old(db.tables).(tasks := old(db.tables.tasks)[row.id := row]), row.id + 1, old(db.clock),
                 db.tables, db.nextId, db.clock,
                 o.sends + [Send(assignee, AssignedNoticeMessage(data.title))])
      && queue.jobs == old(queue.jobs) + (if brokerUp then [EmailJob(row.id, old(db.tables.users[assignee].email))] else [])
      && r == (if brokerUp then Success(row.id) else Failure(CreateFailed))
  }

  /** `create_task(serializer, request)` with the intended arguments
      (`CreateKwargs`). The task always has an assignee, so the
      `if task.assigned_to` branch is always taken. Any failure is reported
      as the generic creation error; what was written before it stays. */
  method CreateTask(db: Database, queue: EmailQueue, data: TaskData, requester: Pk, brokerUp: bool)
    returns (r: Result<Pk, ServiceError>)
    requires db.Valid() && requester in db.tables.users
    modifies db, queue
    ensures db.Valid()
    ensures TaskCreated(db, queue, data, requester, brokerUp, r)
  {
    var f := CreateKwargs(data, requester);
    ghost var row := NewTask(db.nextId, f);
    ghost var o := Persist.TaskPostSave(db.wiring, PS.PreImage(None, None), row, true,
                                        if f.project in db.tables.projects then db.tables.projects[f.project].owner else 1,
                                        db.tables.users.Keys);
    var saved := Persist.SaveNewTask(db, f);
    if saved.Failure? {
      return Failure(CreateFailed);
    }
    var id := saved.value;
    var assignee := f.assignedTo.value;
    assert TaskRefsOk(old(db.tables), row) && o.ok;
    ghost var t1, n1 := db.tables, db.nextId;
    assert t1.users == old(db.tables.users);
    var queued := NotifyAssignee(db, queue, id, assignee, data.title, brokerUp);
    ExtendsTrans(old(db.tables).(tasks := old(db.tables.tasks)[row.id := row]), row.id + 1, old(db.clock),
                 t1, n1, db.clock, db.tables, db.nextId, db.clock,
                 o.sends, [Send(assignee, AssignedNoticeMessage(data.title))]);
    r := if queued then Success(id) else Failure(CreateFailed);
  }

  /** `create_task(serializer, request)` as written (`CreateKwargsAsWritten`):
      a payload that holds an `assigned_to` key makes the repository call
      raise before anything is written, and the handler reports the generic
      creation error; any other payload behaves as the intended call. */
  method CreateTaskAsWritten(db: Database, queue: EmailQueue, data: TaskData, requester: Pk, brokerUp: bool)
    returns (r: Result<Pk, ServiceError>)
    requires db.Valid() && requester in db.tables.users
    modifies db, queue
    ensures db.Valid()
    ensures data.assignedTo.Some? ==>
              && r == Failure(CreateFailed) && queue.jobs == old(queue.jobs)
              && db.tables == old(db.tables) && db.nextId == old(db.nextId) && db.clock == old(db.clock)
    ensures data.assignedTo.None? ==> TaskCreated(db, queue, data, requester, brokerUp, r)
  {
    var kwargs := CreateKwargsAsWritten(data, requester);
    if kwargs.Failure? {
      return Failure(CreateFailed);
    }
    r := CreateTask(db, queue, data, requester, brokerUp);
  }

  /** The `if task.assigned_to` branch of `create_task`: the service's own
      notice to the assignee, then the e-mail job, which is queued iff the
      broker can be reached. */
  method NotifyAssignee(db: Database, queue: EmailQueue, taskId: Pk, assignee: Pk, title: string, brokerUp: bool)
    returns (queued: bool)
    requires db.Valid() && assignee in db.tables.users
    modifies db, queue
    ensures db.Valid()
    ensures db.Appended([Send(assignee, AssignedNoticeMessage(title))])
    ensures queued == brokerUp
    ensures queue.jobs == old(queue.jobs) + (if brokerUp then [EmailJob(taskId, old(db.tables.users[assignee].email))] else [])
  {
    var _ := db.CreateNotification(Some(assignee), AssignedNoticeMessage(title));
    var email := db.tables.users[assignee].email;
    queued := queue.Delay(taskId, email, brokerUp);
  }

  /** With both signal modules connected, the assignee of a new task hears
      of it four times: the test notice, "You were assigned", "You have been
      assigned to task:" and the service's own "You have been assigned to
      task '...'". */
  lemma FourAssignmentNotices(data: TaskData, requester: Pk, id: Pk, owner: Pk, users: set<Pk>)
    ensures var f := CreateKwargs(data, requester);
            var row := NewTask(id, f);
            var a := f.assignedTo.value;
            var o := Persist.TaskPostSave(Wiring(true, true), PS.PreImage(None, None), row, true, owner, users);
            o.ok && o.sends + [Send(a, AssignedNoticeMessage(data.title))]
                    == [Send(a, PS.TestSignalMessage(data.title)), Send(a, PS.AssignedMessage(data.title)),
                        Send(a, NS.AssignmentMessage(data.title)), Send(a, AssignedNoticeMessage(data.title))]
  {
    var f := CreateKwargs(data, requester);
    Persist.CreateAssignedTaskNotices(PS.PreImage(None, None), NewTask(id, f), owner, users);
  }

  // ---------------------------------------------------------------- update_task

  /** The raw `status` and `assigned_to` entries of `request.data` (absent
      entries are `None`). */
  datatype UpdateRequest = UpdateRequest(status: Option<PyValue>, assignedTo: Option<PyValue>)

  /** `status_value in ['todo', 'in_progress', 'completed']`. */
  predicate KnownStatus(v: Option<PyValue>)
  {
    v.Some? && v.value.PyStr? && (v.value.s == "todo" || v.value.s == "in_progress" || v.value.s == "completed")
  }

  /** The accepted status texts are exactly the stored names of the task
      statuses. */
  lemma KnownStatusIsStatusName(s: string)
    ensures KnownStatus(Some(PyStr(s))) <==> exists st :: StatusName(st) == s
  {
    if KnownStatus(Some(PyStr(s))) {
      if s == "todo" { assert StatusName(Todo) == s; }
      else if s == "in_progress" { assert StatusName(InProgress) == s; }
      else { assert StatusName(Completed) == s; }
    }
  }

  /** The two checks of `update_task`, in order: the status first, then
      reassignment by a non-staff user. `None` lets the save proceed. */
  function UpdateGuard(req: UpdateRequest, isStaff: bool): (r: Option<ServiceError>)
    ensures r.None? <==> KnownStatus(req.status) && (isStaff || !TruthyEntry(req.assignedTo))
    ensures !KnownStatus(req.status) ==> r == Some(InvalidTaskStatus)
    ensures r == Some(PermissionDenied) <==> KnownStatus(req.status) && TruthyEntry(req.assignedTo) && !isStaff
  {
    if !KnownStatus(req.status) then Some(InvalidTaskStatus)
    else if TruthyEntry(req.assignedTo) && !isStaff then Some(PermissionDenied)
    else None
  }

  /** A request without a status is refused, even one that only reassigns
      and comes from staff; and a non-staff reassignment with a bad status
      is reported as a bad status. */
  lemma StatusCheckedFirst(assignedTo: Option<PyValue>, isStaff: bool, status: Option<PyValue>)
    requires !KnownStatus(status)
    ensures UpdateGuard(UpdateRequest(None, assignedTo), isStaff) == Some(InvalidTaskStatus)
    ensures UpdateGuard(UpdateRequest(status, assignedTo), isStaff) == Some(InvalidTaskStatus)
  {
  }

  /** `update_task(serializer, request)`: the guard, then `serializer.save()`,
      which writes the validated fields onto the instance and saves it (the
      repository's field overwrite). A refused request writes nothing.
      `req` is the raw request data the guard reads and `kwargs` the
      serializer's validated data; both come from one payload, and the
      serializer validation that relates them is not modelled, so the guard
      does not constrain what `kwargs` writes. */
  method UpdateTask(db: Database, task: Task, req: UpdateRequest, kwargs: seq<TR.FieldUpdate>, requester: Pk)
    returns (r: Result<Task, ServiceError>)
    requires db.Valid() && task.id < db.nextId && requester in db.tables.users
    modifies db
    ensures db.Valid()
    ensures var g := UpdateGuard(req, old(db.tables.users[requester].isStaff));
            g.Some? ==> r == Failure(g.value) && db.tables == old(db.tables) && db.nextId == old(db.nextId)
                        && db.clock == old(db.clock)
    ensures UpdateGuard(req, old(db.tables.users[requester].isStaff)).None? ==>
              && (r.Success? ==> r.value == TR.ApplyAll(task, kwargs))
              && (r.Failure? ==> r.error.SaveFailed?)
              && Persist.SavedTask(db, TR.ApplyAll(task, kwargs), if r.Success? then Success(()) else Failure(r.error.cause))
  {
    var g := UpdateGuard(req, db.tables.users[requester].isStaff);
    if g.Some? {
      return Failure(g.value);
    }
    var saved := TR.UpdateTask(db, task, kwargs);
    r := if saved.Success? then Success(saved.value) else Failure(SaveFailed(saved.error));
  }

  // ---------------------------------------------------------------- get_comments

  /** `get_comments(user, task_id)`: the same read-through listing as
      `CommentService.list_comments`, key, timeout and query included. */
  method GetComments(db: Database, cache: LocMemCache, user: Pk, taskId: Pk, now: nat)
    returns (comments: seq<TaskComment>)
    modifies cache
    ensures (comments, cache.entries) == CS.ListOutcome(old(cache.entries), db.tables, user, taskId, now)
  {
    comments := CS.ListComments(db, cache, user, taskId, now);
  }
}

/** `save()` of a task, a comment or an attachment as the application sees
    it: the pre-save receiver, the INSERT or UPDATE, then the post-save
    receivers of whichever signal modules are connected, in the order
    `test_task_signal`, `_task_notifications` (both in `projects/signals.py`),
    then `notify_task_assignment` (in `notifications/signals.py`). An
    exception in a receiver ends the save with an error after the row has
    been written, and the receivers after it do not run. */
module Persist {
  import opened Base
  import opened Models
  import opened Store
  import PS = ProjectSignals
  import NS = NotificationSignals

  /** Why a save failed: a foreign key names no row, or a NOT NULL column
      received null (the test receiver on an unassigned task). */
  datatype SaveError = ForeignKeyViolation | NotNullViolation

  /** The notifications written by the post-save receivers for a task, and
      whether the save completes without an exception. */
  function TaskPostSave(w: Wiring, pre: PS.PreImage, post: Task, created: bool, owner: Pk, users: set<Pk>): PS.Outcome
  {
    var later := if w.notificationSignals then NS.TaskAssignmentNotices(post, created) else [];
    if !w.projectSignals then PS.Outcome(later, true)
    else
      var test := PS.TestSignalNotices(post, created);
      if !test.ok then PS.Outcome([], false)
      else PS.Outcome(test.sends + PS.TaskNotices(pre, post, created, owner, users) + later, true)
  }

  /** The notifications written by the post-save receivers for a comment. */
  function CommentPostSave(w: Wiring, content: string, created: bool, task: Task, owner: Pk): seq<Send>
  {
    (if w.projectSignals then PS.CommentNotices(content, created, task, owner) else [])
    + (if w.notificationSignals then NS.CommentNotices(content, created, task) else [])
  }

  /** The notifications written by the post-save receivers for an attachment. */
  function AttachmentPostSave(w: Wiring, fileName: string, created: bool, task: Task, owner: Pk): seq<Send>
  {
    if w.projectSignals then PS.AttachmentNotices(fileName, created, task, owner) else []
  }

  /** The post-save receivers of a task, in order. */
  method TaskPostSaveReceivers(db: Database, instance: Task, pre: PS.PreImage, created: bool) returns (ok: bool)
    requires db.Valid()
    requires instance.project in db.tables.projects
    requires instance.assignedTo.Some? ==> instance.assignedTo.value in db.tables.users
    modifies db
    ensures db.Valid()
    ensures var o := TaskPostSave(db.wiring, pre, instance, created,
                                  old(db.tables.projects[instance.project].owner), old(db.tables.users.Keys));
            ok == o.ok && db.Appended(o.sends)
  {
    ghost var owner, users := db.tables.projects[instance.project].owner, db.tables.users.Keys;
    ghost var first: seq<Send> := [];
    if db.wiring.projectSignals {
      ok := PS.TestTaskSignal(db, instance, created);
      if !ok {
        return;
      }
      ghost var t1, n1 := db.tables, db.nextId;
      PS.TaskNotifications(db, instance, pre, created);
      ExtendsTrans(old(db.tables), old(db.nextId), db.clock, t1, n1, db.clock, db.tables, db.nextId, db.clock,
                   PS.TestSignalNotices(instance, created).sends, PS.TaskNotices(pre, instance, created, owner, users));
      first := PS.TestSignalNotices(instance, created).sends + PS.TaskNotices(pre, instance, created, owner, users);
    }
    ok := true;
    ghost var t2, n2 := db.tables, db.nextId;
    ghost var later: seq<Send> := [];
    if db.wiring.notificationSignals {
      NS.NotifyTaskAssignment(db, instance, created);
      later := NS.TaskAssignmentNotices(instance, created);
    }
    ExtendsTrans(old(db.tables), old(db.nextId), db.clock, t2, n2, db.clock, db.tables, db.nextId, db.clock,
                 first, later);
  }

  /** `Task.objects.create(**fields)`: the INSERT (the pre-save snapshot of a
      row without a key is empty), then the post-save receivers. When a
      receiver fails the row stays and the error is reported. */
  method SaveNewTask(db: Database, f: TaskFields) returns (r: Result<Pk, SaveError>)
    requires db.Valid()
    modifies db
    ensures db.Valid()
    ensures var row := NewTask(old(db.nextId), f);
            if !TaskRefsOk(old(db.tables), row)
            then r == Failure(ForeignKeyViolation) && db.tables == old(db.tables) && db.nextId == old(db.nextId)
            else
              var o := TaskPostSave(db.wiring, PS.PreImage(None, None), row, true,
                                    old(db.tables.projects[f.project].owner), old(db.tables.users.Keys));
              && r == (if o.ok then Success(row.id) else Failure(NotNullViolation))
              && Extends(old(db.tables).(tasks := old(db.tables.tasks)[row.id := row]), row.id + 1, old(db.clock),
                         db.tables, db.nextId, db.clock, o.sends)
  {
    var pre := PS.StashOldValues(None, db.tables.tasks);
    var id := db.InsertTask(f);
    if id.None? {
      return Failure(ForeignKeyViolation);
    }
    var row := NewTask(id.value, f);
    assert db.tables == old(db.tables).(tasks := old(db.tables.tasks)[row.id := row]);
    assert db.tables.projects == old(db.tables.projects) && db.tables.users == old(db.tables.users);
    var ok := TaskPostSaveReceivers(db, row, pre, true);
    r := if ok then Success(row.id) else Failure(NotNullViolation);
  }

  /** What `task.save()` of an instance with a key did to `db` and reported:
      nothing and a foreign-key error when a reference names no row;
      otherwise the row is written under its key, followed by exactly the
      notifications of the post-save receivers, and the outcome is theirs. */
  twostate predicate SavedTask(db: Database, task: Task, new r: Result<(), SaveError>)
    reads db
  {
    if !TaskRefsOk(old(db.tables), task)
    then r == Failure(ForeignKeyViolation) && db.tables == old(db.tables) && db.nextId == old(db.nextId)
         && db.clock == old(db.clock)
    else
      var o := TaskPostSave(db.wiring, PS.StashOldValues(Some(task.id), old(db.tables.tasks)), task,
                            task.id !in old(db.tables.tasks),
                            old(db.tables.projects[task.project].owner), old(db.tables.users.Keys));
      && r == (if o.ok then Success(()) else Failure(NotNullViolation))
      && Extends(old(db.tables).(tasks := old(db.tables.tasks)[task.id := task]), old(db.nextId), old(db.clock),
                 db.tables, db.nextId, db.clock, o.sends)
  }

  /** `task.save()` for a task that has a key: the pre-save snapshot of the
      stored row, the UPDATE (or an INSERT under that key when the row is
      gone, which counts as a creation), then the post-save receivers. */
  method SaveTask(db: Database, task: Task) returns (r: Result<(), SaveError>)
    requires db.Valid() && task.id < db.nextId
    modifies db
    ensures db.Valid()
    ensures SavedTask(db, task, r)
  {
    var pre := PS.StashOldValues(Some(task.id), db.tables.tasks);
    var created := task.id !in db.tables.tasks;
    var saved := db.PutTask(task);
    if !saved {
      return Failure(ForeignKeyViolation);
    }
    assert db.tables == old(db.tables).(tasks := old(db.tables.tasks)[task.id := task]);
    assert db.tables.projects == old(db.tables.projects) && db.tables.users == old(db.tables.users);
    var ok := TaskPostSaveReceivers(db, task, pre, created);
    r := if ok then Success(()) else Failure(NotNullViolation);
  }

  /** The post-save receivers of a comment, in order. */
  method CommentPostSaveReceivers(db: Database, comment: TaskComment)
    requires db.Valid() && comment.task in db.tables.tasks
    modifies db
    ensures db.Valid()
    ensures var row := old(db.tables.tasks[comment.task]);
            db.Appended(CommentPostSave(db.wiring, comment.content, true, row, old(db.TaskOwner(comment.task))))
  {
    ghost var row := db.tables.tasks[comment.task];
    ghost var owner := db.TaskOwner(comment.task);
    ghost var first: seq<Send> := [];
    if db.wiring.projectSignals {
      PS.CommentNotifications(db, comment, true);
      first := PS.CommentNotices(comment.content, true, row, owner);
    }
    ghost var t1, n1 := db.tables, db.nextId;
    assert t1.tasks == old(db.tables.tasks);
    ghost var later: seq<Send> := [];
    if db.wiring.notificationSignals {
      NS.NotifyTaskComment(db, comment, true);
      later := NS.CommentNotices(comment.content, true, row);
    }
    ExtendsTrans(old(db.tables), old(db.nextId), db.clock, t1, n1, db.clock, db.tables, db.nextId, db.clock, first, later);
  }

  /** `TaskComment.objects.create(...)`: the INSERT, then the post-save
      receivers of both signal modules. */
  method SaveNewComment(db: Database, task: Pk, author: Pk, content: string) returns (r: Result<Pk, SaveError>)
    requires db.Valid()
    modifies db
    ensures db.Valid()
    ensures task !in old(db.tables.tasks) || author !in old(db.tables.users) ==>
              r == Failure(ForeignKeyViolation) && db.tables == old(db.tables) && db.nextId == old(db.nextId)
    ensures task in old(db.tables.tasks) && author in old(db.tables.users) ==>
              && r == Success(old(db.nextId))
              && Extends(old(db.tables).(comments := old(db.tables.comments) + [NewComment(old(db.nextId), task, author, content)]),
                         old(db.nextId) + 1, old(db.clock), db.tables, db.nextId, db.clock,
                         CommentPostSave(db.wiring, content, true, old(db.tables.tasks[task]),
                                         old(db.TaskOwner(task))))
  {
    var id := db.InsertComment(task, author, content);
    if id.None? {
      return Failure(ForeignKeyViolation);
    }
    var comment := NewComment(id.value, task, author, content);
    ghost var t1, n1 := db.tables, db.nextId;
    assert t1 == old(db.tables).(comments := old(db.tables.comments) + [comment]);
    ghost var row := t1.tasks[task];
    ghost var owner := old(db.TaskOwner(task));
    assert db.TaskOwner(task) == owner;
    CommentPostSaveReceivers(db, comment);
    assert Extends(t1, n1, old(db.clock), db.tables, db.nextId, db.clock,
                   CommentPostSave(db.wiring, content, true, row, owner));
    r := Success(id.value);
  }

  /** The post-save receivers of an attachment. */
  method AttachmentPostSaveReceivers(db: Database, attachment: TaskAttachment)
    requires db.Valid() && attachment.task in db.tables.tasks
    modifies db
    ensures db.Valid()
    ensures var row := old(db.tables.tasks[attachment.task]);
            db.Appended(AttachmentPostSave(db.wiring, attachment.fileName, true, row, old(db.TaskOwner(attachment.task))))
  {
    if db.wiring.projectSignals {
      PS.AttachmentNotifications(db, attachment, true);
    }
  }

  /** `TaskAttachment.objects.create(...)`: the INSERT, then the post-save
      receiver of `projects/signals.py`. */
  method SaveNewAttachment(db: Database, task: Pk, fileName: string) returns (r: Result<Pk, SaveError>)
    requires db.Valid()
    modifies db
    ensures db.Valid()
    ensures task !in old(db.tables.tasks) ==>
              r == Failure(ForeignKeyViolation) && db.tables == old(db.tables) && db.nextId == old(db.nextId)
    ensures task in old(db.tables.tasks) ==>
              && r == Success(old(db.nextId))
              && Extends(old(db.tables).(attachments := old(db.tables.attachments) + [TaskAttachment(old(db.nextId), task, fileName)]),
                         old(db.nextId) + 1, old(db.clock), db.tables, db.nextId, db.clock,
                         AttachmentPostSave(db.wiring, fileName, true, old(db.tables.tasks[task]),
                                            old(db.TaskOwner(task))))
  {
    var id := db.InsertAttachment(task, fileName);
    if id.None? {
      return Failure(ForeignKeyViolation);
    }
    var attachment := TaskAttachment(id.value, task, fileName);
    ghost var t1, n1 := db.tables, db.nextId;
    assert t1 == old(db.tables).(attachments := old(db.tables.attachments) + [attachment]);
    ghost var row := t1.tasks[task];
    ghost var owner := old(db.TaskOwner(task));
    assert db.TaskOwner(task) == owner;
    AttachmentPostSaveReceivers(db, attachment);
    assert Extends(t1, n1, old(db.clock), db.tables, db.nextId, db.clock,
                   AttachmentPostSave(db.wiring, fileName, true, row, owner));
    r := Success(id.value);
  }

  // ---------------------------------------------------------------- the receivers together

  /** With both signal modules connected, creating an assigned task writes
      three notifications to the assignee: the test notice, "You were
      assigned" and "You have been assigned". */
  lemma CreateAssignedTaskNotices(pre: PS.PreImage, post: Task, owner: Pk, users: set<Pk>)
    requires post.assignedTo.Some?
    ensures var a, o := post.assignedTo.value, TaskPostSave(Wiring(true, true), pre, post, true, owner, users);
            o.ok && o.sends == [Send(a, PS.TestSignalMessage(post.title)), Send(a, PS.AssignedMessage(post.title)),
                                Send(a, NS.AssignmentMessage(post.title))]
  {
    PS.CreatedTaskNotices(pre, post, owner, users);
  }

  /** While `projects/signals.py` is connected, creating a task without an
      assignee fails in the test receiver and writes no notification. */
  lemma CreateUnassignedTaskFails(w: Wiring, pre: PS.PreImage, post: Task, owner: Pk, users: set<Pk>)
    requires w.projectSignals && post.assignedTo.None?
    ensures TaskPostSave(w, pre, post, true, owner, users) == PS.Outcome([], false)
  {
  }

  /** A save that changes nothing, of an assigned task, is silent in
      `projects/signals.py` but still writes the "status changed to" notice
      of `notifications/signals.py`. */
  lemma UnchangedSaveNotices(tasks: map<Pk, Task>, post: Task, owner: Pk, users: set<Pk>)
    requires post.id in tasks && post.assignedTo.Some?
    requires tasks[post.id].assignedTo == post.assignedTo && tasks[post.id].status == post.status
    ensures var o := TaskPostSave(Wiring(true, true), PS.StashOldValues(Some(post.id), tasks), post, false, owner, users);
            o.ok && o.sends == [Send(post.assignedTo.value, NS.StatusMessage(post.title, post.status))]
  {
    PS.UnchangedSaveIsSilent(PS.StashOldValues(Some(post.id), tasks), post, owner, users);
  }

  /** A comment on a task assigned to someone other than the project owner
      notifies the owner once and the assignee twice when both modules are
      connected: once with the stripped snippet, once with the raw prefix. */
  lemma CommentNoticesBothModules(content: string, task: Task, owner: Pk)
    requires task.assignedTo.Some? && task.assignedTo.value != owner
    ensures CommentPostSave(Wiring(true, true), content, true, task, owner)
         == [Send(owner, PS.CommentMessage(task.title, content)),
             Send(task.assignedTo.value, PS.CommentMessage(task.title, content)),
             Send(task.assignedTo.value, NS.CommentMessage(task.title, content))]
  {
    PS.CommentNoticesRecipients(content, task, owner);
  }
}

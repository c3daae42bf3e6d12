/** The receivers of `notifications/signals.py`. Unlike those of
    `projects/signals.py` they keep no pre-save snapshot: every save of an
    assigned task that is not its creation produces a "status changed"
    notification, whether or not anything changed. */
module NotificationSignals {
  import opened Base
  import opened Models
  import opened Text
  import opened Store

  function AssignmentMessage(title: string): string
  {
    "You have been assigned to task: " + title
  }

  function StatusMessage(title: string, status: TaskStatus): string
  {
    "Task '" + title + "' status changed to " + StatusName(status)
  }

  /** The comment text is quoted as its first 50 characters, with no marker. */
  function CommentMessage(title: string, content: string): string
  {
    "New comment on task '" + title + "': " + Take(content, 50)
  }

  /** `notify_task_assignment`: what a save of `post` writes. */
  function TaskAssignmentNotices(post: Task, created: bool): seq<Send>
  {
    if post.assignedTo.None? then []
    else if created then [Send(post.assignedTo.value, AssignmentMessage(post.title))]
    else [Send(post.assignedTo.value, StatusMessage(post.title, post.status))]
  }

  /** `notify_task_comment`: what saving a comment on `task` writes. */
  function CommentNotices(content: string, created: bool, task: Task): seq<Send>
  {
    if created && task.assignedTo.Some?
    then [Send(task.assignedTo.value, CommentMessage(task.title, content))]
    else []
  }

  /** A task saved without an assignee, on creation or later, is silent; one
      saved with an assignee notifies exactly that assignee, once. */
  lemma TaskAssignmentRecipients(post: Task, created: bool)
    ensures post.assignedTo.None? ==> TaskAssignmentNotices(post, created) == []
    ensures post.assignedTo.Some? ==>
              |TaskAssignmentNotices(post, created)| == 1
              && TaskAssignmentNotices(post, created)[0].recipient == post.assignedTo.value
    ensures post.assignedTo.Some? && created ==>
              TaskAssignmentNotices(post, created)[0].message == AssignmentMessage(post.title)
  {
  }

  /** The notice written on an update depends only on the title, the status
      and the assignee being saved: two saves that agree on those write the
      same notice, whatever the row held before. */
  lemma UpdateNoticeIgnoresHistory(a: Task, b: Task)
    requires a.title == b.title && a.status == b.status && a.assignedTo == b.assignedTo
    ensures TaskAssignmentNotices(a, false) == TaskAssignmentNotices(b, false)
    ensures a.assignedTo.Some? ==>
              TaskAssignmentNotices(a, false) == [Send(a.assignedTo.value, StatusMessage(a.title, a.status))]
  {
  }

  /** A comment notifies only the assignee of its task (never the project
      owner as such), quoting a prefix of the content of at most 50
      characters; comment updates and comments on unassigned tasks are
      silent. */
  lemma CommentRecipients(content: string, created: bool, task: Task)
    ensures !created || task.assignedTo.None? ==> CommentNotices(content, created, task) == []
    ensures forall s :: s in CommentNotices(content, created, task) ==>
              && task.assignedTo == Some(s.recipient)
              && (var quoted := s.message[|"New comment on task '" + task.title + "': "|..];
                  |quoted| <= 50 && quoted <= content)
    ensures created && task.assignedTo.Some? ==> |CommentNotices(content, created, task)| == 1
  {
    if created && task.assignedTo.Some? {
      var m := CommentMessage(task.title, content);
      assert m[|"New comment on task '" + task.title + "': "|..] == Take(content, 50);
    }
  }

  /** `notify_task_assignment`. The `hasattr(instance, 'status')` test always
      holds for a task. */
  method NotifyTaskAssignment(db: Database, instance: Task, created: bool)
    requires db.Valid()
    requires instance.assignedTo.Some? ==> instance.assignedTo.value in db.tables.users
    modifies db
    ensures db.Valid()
    ensures db.Appended(TaskAssignmentNotices(instance, created))
  {
    if created && instance.assignedTo.Some? {
      var ok := db.CreateNotification(instance.assignedTo, AssignmentMessage(instance.title));
    } else if instance.assignedTo.Some? {
      var ok := db.CreateNotification(instance.assignedTo, StatusMessage(instance.title, instance.status));
    }
  }

  /** `notify_task_comment`. */
  method NotifyTaskComment(db: Database, comment: TaskComment, created: bool)
    requires db.Valid() && comment.task in db.tables.tasks
    modifies db
    ensures db.Valid()
    ensures db.Appended(CommentNotices(comment.content, created, old(db.tables.tasks[comment.task])))
  {
    var task := db.tables.tasks[comment.task];
    TaskRowFacts(db.tables, db.nextId, comment.task);
    if created && task.assignedTo.Some? {
      var ok := db.CreateNotification(task.assignedTo, CommentMessage(task.title, comment.content));
    }
  }
}

/** The receivers of `projects/signals.py`: the test receiver on task
    creation, the pre-save snapshot of a task's old status and assignee, and
    the receivers that notify the people concerned when a task is created or
    changed, a comment is posted or an attachment is uploaded. Each receiver
    is specified by a pure function giving the notifications it writes, in
    order; the methods that write them are proved against those functions. */
module ProjectSignals {
  import opened Base
  import opened Models
  import opened Text
  import opened Store

  // ---------------------------------------------------------------- _notify

  /** The users `_notify` writes a notification for, in order: each non-null
      candidate, skipping any already written for. */
  function Recipients(c: seq<Option<Pk>>): (r: seq<Pk>)
    ensures forall x :: x in r <==> Some(x) in c
    ensures forall i, j :: 0 <= i < j < |r| ==> r[i] != r[j]
  {
    if c == [] then []
    else
      var r := Recipients(c[..|c| - 1]);
      var last := c[|c| - 1];
      assert c == c[..|c| - 1] + [last];
      if last.Some? && last.value !in r then r + [last.value] else r
  }

  /** The position of the first occurrence of `Some(x)` in `c`. */
  function FirstIndex(c: seq<Option<Pk>>, x: Pk): (k: nat)
    requires Some(x) in c
    ensures k < |c| && c[k] == Some(x)
    ensures forall j :: 0 <= j < k ==> c[j] != Some(x)
  {
    if c[0] == Some(x) then 0 else 1 + FirstIndex(c[1..], x)
  }

  lemma FirstIndexExtend(c: seq<Option<Pk>>, last: Option<Pk>, x: Pk)
    requires Some(x) in c
    ensures FirstIndex(c + [last], x) == FirstIndex(c, x)
  {
    var k2 := FirstIndex(c, x);
    assert (c + [last])[k2] == Some(x);
    assert forall j :: 0 <= j < k2 ==> (c + [last])[j] == c[j];
  }

  /** `_notify` keeps the order of first occurrence: recipients appear in the
      order in which they first occur among the candidates. */
  lemma {:induction false} RecipientsInFirstOccurrenceOrder(c: seq<Option<Pk>>)
    ensures forall i, j :: 0 <= i < j < |Recipients(c)| ==>
              FirstIndex(c, Recipients(c)[i]) < FirstIndex(c, Recipients(c)[j])
  {
    if c != [] {
      var init, last := c[..|c| - 1], c[|c| - 1];
      assert c == init + [last];
      RecipientsInFirstOccurrenceOrder(init);
      var r0, r := Recipients(init), Recipients(c);
      forall y | y in r0
        ensures FirstIndex(c, y) == FirstIndex(init, y)
      {
        FirstIndexExtend(init, last, y);
      }
      forall i, j | 0 <= i < j < |r|
        ensures FirstIndex(c, r[i]) < FirstIndex(c, r[j])
      {
        assert r[i] in r0;
        if j < |r0| {
          assert r[j] in r0;
        } else {
          assert r[j] == last.value && last.value !in r0;
          assert FirstIndex(c, r[j]) == |c| - 1;
        }
      }
    }
  }

  lemma RecipientsSnoc(c: seq<Option<Pk>>, x: Option<Pk>)
    ensures Recipients(c + [x])
         == if x.Some? && x.value !in Recipients(c) then Recipients(c) + [x.value] else Recipients(c)
  {
    assert (c + [x])[..|c|] == c;
  }

  /** A repeated candidate and a null candidate are skipped. */
  lemma RecipientsExample(a: Pk, b: Pk)
    requires a != b
    ensures Recipients([Some(a), Some(a), None, Some(b)]) == [a, b]
  {
    RecipientsSingle(Some(a));
    RecipientsSnoc([Some(a)], Some(a));
    assert [Some(a)] + [Some(a)] == [Some(a), Some(a)];
    RecipientsSnoc([Some(a), Some(a)], None);
    assert [Some(a), Some(a)] + [None] == [Some(a), Some(a), None];
    RecipientsSnoc([Some(a), Some(a), None], Some(b));
    assert [Some(a), Some(a), None] + [Some(b)] == [Some(a), Some(a), None, Some(b)];
  }

  lemma RecipientsSingle(x: Option<Pk>)
    ensures Recipients([x]) == if x.Some? then [x.value] else []
  {
    assert [x][..0] == [];
  }

  lemma RecipientsPair(o: Pk, x: Option<Pk>)
    ensures Recipients([Some(o), x]) == [o] + if x.Some? && x.value != o then [x.value] else []
  {
    assert [Some(o), x][..1] == [Some(o)];
    RecipientsSingle(Some(o));
  }

  /** One notification with `message` per recipient. */
  function Announce(rs: seq<Pk>, message: string): seq<Send>
  {
    seq(|rs|, i requires 0 <= i < |rs| => Send(rs[i], message))
  }

  /** One candidate, one notification. */
  lemma NotifyOne(x: Pk, message: string)
    ensures NotifySends([Some(x)], message) == [Send(x, message)]
  {
    RecipientsSingle(Some(x));
  }

  /** What `_notify(candidates, message)` writes. */
  function NotifySends(c: seq<Option<Pk>>, message: string): seq<Send>
  {
    Announce(Recipients(c), message)
  }

  /** `_notify`: one notification for each distinct non-null candidate. */
  method Notify(db: Database, candidates: seq<Option<Pk>>, message: string)
    requires db.Valid()
    requires forall i :: 0 <= i < |candidates| && candidates[i].Some? ==> candidates[i].value in db.tables.users
    modifies db
    ensures db.Valid()
    ensures db.Appended(NotifySends(candidates, message))
  {
    var seen: set<Pk> := {};
    ghost var sent: seq<Pk> := [];
    for i := 0 to |candidates|
      invariant db.Valid()
      invariant sent == Recipients(candidates[..i])
      invariant forall x :: x in seen <==> x in sent
      invariant db.Appended(Announce(sent, message))
      invariant db.tables.users == old(db.tables.users) && db.clock == old(db.clock)
    {
      assert candidates[..i + 1][..i] == candidates[..i];
      var user := candidates[i];
      if user.Some? && user.value !in seen {
        assert user.value in db.tables.users;
        ghost var t1, n1 := db.tables, db.nextId;
        var ok := db.CreateNotification(user, message);
        ExtendsTrans(old(db.tables), old(db.nextId), old(db.clock), t1, n1, db.clock, db.tables, db.nextId, db.clock,
                     Announce(sent, message), [Send(user.value, message)]);
        assert Announce(sent, message) + [Send(user.value, message)] == Announce(sent + [user.value], message);
        seen := seen + {user.value};
        sent := sent + [user.value];
      }
    }
    assert candidates[..|candidates|] == candidates;
  }

  // ---------------------------------------------------------------- messages

  function TestSignalMessage(title: string): string
  {
    "Test signal: Task '" + title + "' created!"
  }

  function AssignedMessage(title: string): string
  {
    "You were assigned to task '" + title + "'."
  }

  function UnassignedMessage(title: string): string
  {
    "You were unassigned from task '" + title + "'."
  }

  function StatusChangedMessage(title: string, from: TaskStatus, to: TaskStatus): string
  {
    "Task '" + title + "' status changed from " + StatusName(from) + " to " + StatusName(to) + "."
  }

  /** The comment text as quoted in a notification: stripped, and cut to 47
      characters followed by "..." when longer than 50. */
  function Snippet(content: string): (r: string)
    ensures |r| <= 50
    ensures r == Strip(content) <==> |Strip(content)| <= 50
    ensures |Strip(content)| > 50 ==> |r| == 50 && r[..47] == Strip(content)[..47] && r[47..] == "..."
  {
    var t := Strip(content);
    if |t| > 50 then t[..47] + "..." else t
  }

  function CommentMessage(title: string, content: string): string
  {
    "New comment on '" + title + "': " + Snippet(content)
  }

  function AttachmentMessage(title: string, fileName: string): string
  {
    "New attachment added to '" + title + "': " + BaseName(fileName)
  }

  // ---------------------------------------------------------------- pre_save

  /** What `_stash_old_task_values` records on the instance before a save. */
  datatype PreImage = PreImage(oldStatus: Option<TaskStatus>, oldAssignee: Option<Pk>)

  /** The snapshot of the stored row: nothing for an instance without a key
      or whose row is gone, else the stored status and assignee. */
  function StashOldValues(pk: Option<Pk>, tasks: map<Pk, Task>): (pre: PreImage)
    ensures pre.oldStatus.Some? <==> pk.Some? && pk.value in tasks
    ensures pre.oldStatus.Some? ==> pre == PreImage(Some(tasks[pk.value].status), tasks[pk.value].assignedTo)
    ensures pre.oldStatus.None? ==> pre.oldAssignee.None?
  {
    if pk.None? then PreImage(None, None)
    else if pk.value !in tasks then PreImage(None, None)
    else PreImage(Some(tasks[pk.value].status), tasks[pk.value].assignedTo)
  }

  // ---------------------------------------------------------------- post_save specifications

  /** `test_task_signal`: on creation, a test notification to the assignee.
      With no assignee the insert violates NOT NULL: nothing is written and
      the save fails (`false`). */
  datatype Outcome = Outcome(sends: seq<Send>, ok: bool)

  function TestSignalNotices(post: Task, created: bool): Outcome
  {
    if !created then Outcome([], true)
    else if post.assignedTo.None? then Outcome([], false)
    else Outcome([Send(post.assignedTo.value, TestSignalMessage(post.title))], true)
  }

  /** `_task_notifications`: what is written after a task is saved, given the
      pre-save snapshot, the project owner and the users that exist. */
  function TaskNotices(pre: PreImage, post: Task, created: bool, owner: Pk, users: set<Pk>): seq<Send>
  {
    if created then
      (if post.assignedTo.Some? then NotifySends([post.assignedTo], AssignedMessage(post.title)) else [])
    else
      AssignmentNotices(pre, post, users) + StatusNotices(pre, post, owner)
  }

  /** The "assignment changed" branch of `_task_notifications`. */
  function AssignmentNotices(pre: PreImage, post: Task, users: set<Pk>): seq<Send>
  {
    if post.assignedTo == pre.oldAssignee then []
    else
      (if post.assignedTo.Some? then NotifySends([post.assignedTo], AssignedMessage(post.title)) else [])
      + (if pre.oldAssignee.Some? && pre.oldAssignee != post.assignedTo && pre.oldAssignee.value in users
         then NotifySends([pre.oldAssignee], UnassignedMessage(post.title)) else [])
  }

  /** The "status changed" branch of `_task_notifications`. */
  function StatusNotices(pre: PreImage, post: Task, owner: Pk): seq<Send>
  {
    if pre.oldStatus.Some? && post.status != pre.oldStatus.value
    then NotifySends([Some(owner), post.assignedTo], StatusChangedMessage(post.title, pre.oldStatus.value, post.status))
    else []
  }

  /** `_comment_notifications`: a new comment notifies the project owner and
      the task's assignee, once each. */
  function CommentNotices(content: string, created: bool, task: Task, owner: Pk): seq<Send>
  {
    if !created then [] else NotifySends([Some(owner), task.assignedTo], CommentMessage(task.title, content))
  }

  /** `_attachment_notifications`: a new attachment notifies the project
      owner and the task's assignee, once each. */
  function AttachmentNotices(fileName: string, created: bool, task: Task, owner: Pk): seq<Send>
  {
    if !created then [] else NotifySends([Some(owner), task.assignedTo], AttachmentMessage(task.title, fileName))
  }

  // ---------------------------------------------------------------- properties

  /** A newly created task notifies its assignee of the assignment and
      nothing else; an unassigned new task notifies nobody. */
  lemma CreatedTaskNotices(pre: PreImage, post: Task, owner: Pk, users: set<Pk>)
    ensures TaskNotices(pre, post, true, owner, users)
         == if post.assignedTo.Some? then [Send(post.assignedTo.value, AssignedMessage(post.title))] else []
  {
    RecipientsSingle(post.assignedTo);
  }

  /** A save that changes neither the assignee nor the status notifies nobody. */
  lemma UnchangedSaveIsSilent(pre: PreImage, post: Task, owner: Pk, users: set<Pk>)
    requires post.assignedTo == pre.oldAssignee
    requires pre.oldStatus.None? || pre.oldStatus == Some(post.status)
    ensures TaskNotices(pre, post, false, owner, users) == []
  {
  }

  /** Reassignment: the new assignee (if any) is told first, then the
      previous assignee (if any, and if that user still exists). */
  lemma ReassignmentNotices(pre: PreImage, post: Task, owner: Pk, users: set<Pk>)
    requires post.assignedTo != pre.oldAssignee
    requires pre.oldStatus.None? || pre.oldStatus == Some(post.status)
    ensures TaskNotices(pre, post, false, owner, users)
         == (if post.assignedTo.Some? then [Send(post.assignedTo.value, AssignedMessage(post.title))] else [])
            + (if pre.oldAssignee.Some? && pre.oldAssignee.value in users
               then [Send(pre.oldAssignee.value, UnassignedMessage(post.title))] else [])
  {
    var told := if post.assignedTo.Some? then [Send(post.assignedTo.value, AssignedMessage(post.title))] else [];
    var untold := if pre.oldAssignee.Some? && pre.oldAssignee.value in users
                  then [Send(pre.oldAssignee.value, UnassignedMessage(post.title))] else [];
    if post.assignedTo.Some? {
      NotifyOne(post.assignedTo.value, AssignedMessage(post.title));
    }
    if pre.oldAssignee.Some? {
      NotifyOne(pre.oldAssignee.value, UnassignedMessage(post.title));
    }
    assert AssignmentNotices(pre, post, users) == told + untold;
    assert StatusNotices(pre, post, owner) == [];
  }

  /** A status change with the assignee unchanged notifies the project owner
      and then the assignee, one notification each even when they coincide. */
  lemma StatusChangeNotices(pre: PreImage, post: Task, owner: Pk, users: set<Pk>, from: TaskStatus)
    requires post.assignedTo == pre.oldAssignee
    requires pre.oldStatus == Some(from) && from != post.status
    ensures TaskNotices(pre, post, false, owner, users)
         == [Send(owner, StatusChangedMessage(post.title, from, post.status))]
            + if post.assignedTo.Some? && post.assignedTo.value != owner
              then [Send(post.assignedTo.value, StatusChangedMessage(post.title, from, post.status))] else []
  {
    RecipientsPair(owner, post.assignedTo);
  }

  /** The two rules of an update are independent: the notifications of a
      save that changes both the assignee and the status are those of the
      assignment change alone followed by those of the status change alone. */
  lemma UpdateNoticesAdditive(pre: PreImage, post: Task, owner: Pk, users: set<Pk>)
    requires pre.oldStatus.Some?
    ensures TaskNotices(pre, post, false, owner, users)
         == TaskNotices(PreImage(Some(post.status), pre.oldAssignee), post, false, owner, users)
            + TaskNotices(PreImage(pre.oldStatus, post.assignedTo), post, false, owner, users)
  {
    var assigneeChange := PreImage(Some(post.status), pre.oldAssignee);
    var statusChange := PreImage(pre.oldStatus, post.assignedTo);
    assert StatusNotices(assigneeChange, post, owner) == [];
    assert AssignmentNotices(statusChange, post, users) == [];
    assert AssignmentNotices(assigneeChange, post, users) == AssignmentNotices(pre, post, users);
    assert StatusNotices(statusChange, post, owner) == StatusNotices(pre, post, owner);
  }

  /** A snapshot taken from the stored row detects exactly the changes the
      save makes: the update notifies nobody iff the stored assignee and
      status are those being saved (the stored assignee exists, as the
      foreign key guarantees). */
  lemma SnapshotDetectsChange(tasks: map<Pk, Task>, post: Task, owner: Pk, users: set<Pk>)
    requires post.id in tasks
    requires tasks[post.id].assignedTo.Some? ==> tasks[post.id].assignedTo.value in users
    ensures TaskNotices(StashOldValues(Some(post.id), tasks), post, false, owner, users) == []
        <==> tasks[post.id].assignedTo == post.assignedTo && tasks[post.id].status == post.status
  {
    var stored := tasks[post.id];
    RecipientsSingle(post.assignedTo);
    RecipientsSingle(stored.assignedTo);
    RecipientsPair(owner, post.assignedTo);
  }

  /** A comment notifies the project owner and then the assignee, once each;
      the quoted text is at most 50 characters. */
  lemma CommentNoticesRecipients(content: string, task: Task, owner: Pk)
    ensures CommentNotices(content, true, task, owner)
         == [Send(owner, CommentMessage(task.title, content))]
            + if task.assignedTo.Some? && task.assignedTo.value != owner
              then [Send(task.assignedTo.value, CommentMessage(task.title, content))] else []
  {
    RecipientsPair(owner, task.assignedTo);
  }

  /** An attachment notifies the project owner and then the assignee, once
      each, quoting only the last path component of the file name. */
  lemma AttachmentNoticesRecipients(fileName: string, task: Task, owner: Pk)
    ensures AttachmentNotices(fileName, true, task, owner)
         == [Send(owner, AttachmentMessage(task.title, fileName))]
            + if task.assignedTo.Some? && task.assignedTo.value != owner
              then [Send(task.assignedTo.value, AttachmentMessage(task.title, fileName))] else []
  {
    RecipientsPair(owner, task.assignedTo);
  }

  // ---------------------------------------------------------------- receivers

  /** `test_task_signal`. */
  method TestTaskSignal(db: Database, instance: Task, created: bool) returns (ok: bool)
    requires db.Valid()
    requires instance.assignedTo.Some? ==> instance.assignedTo.value in db.tables.users
    modifies db
    ensures db.Valid()
    ensures ok == TestSignalNotices(instance, created).ok
    ensures db.Appended(TestSignalNotices(instance, created).sends)
  {
    ok := true;
    if created {
      ok := db.CreateNotification(instance.assignedTo, TestSignalMessage(instance.title));
    }
  }

  /** The "assignment changed" branch of `_task_notifications`. */
  method NotifyAssignment(db: Database, instance: Task, pre: PreImage)
    requires db.Valid()
    requires instance.assignedTo.Some? ==> instance.assignedTo.value in db.tables.users
    modifies db
    ensures db.Valid()
    ensures db.Appended(AssignmentNotices(pre, instance, old(db.tables.users.Keys)))
  {
    if instance.assignedTo == pre.oldAssignee {
      return;
    }
    ghost var first: seq<Send> := [];
    if instance.assignedTo.Some? {
      Notify(db, [instance.assignedTo], AssignedMessage(instance.title));
      first := NotifySends([instance.assignedTo], AssignedMessage(instance.title));
    }
    ghost var t1, n1 := db.tables, db.nextId;
    ghost var second: seq<Send> := [];
    if pre.oldAssignee.Some? && pre.oldAssignee != instance.assignedTo {
      if pre.oldAssignee.value in db.tables.users {
        Notify(db, [pre.oldAssignee], UnassignedMessage(instance.title));
        second := NotifySends([pre.oldAssignee], UnassignedMessage(instance.title));
      }
    }
    ExtendsTrans(old(db.tables), old(db.nextId), db.clock, t1, n1, db.clock, db.tables, db.nextId, db.clock,
                 first, second);
  }

  /** The "status changed" branch of `_task_notifications`. */
  method NotifyStatus(db: Database, instance: Task, pre: PreImage, owner: Pk)
    requires db.Valid() && owner in db.tables.users
    requires instance.assignedTo.Some? ==> instance.assignedTo.value in db.tables.users
    modifies db
    ensures db.Valid()
    ensures db.Appended(StatusNotices(pre, instance, owner))
  {
    if pre.oldStatus.Some? && instance.status != pre.oldStatus.value {
      var msg := StatusChangedMessage(instance.title, pre.oldStatus.value, instance.status);
      Notify(db, [Some(owner), instance.assignedTo], msg);
    }
  }

  /** `_task_notifications`; `pre` is what `_stash_old_task_values` recorded.
      The `hasattr` guards always hold, since the pre-save receiver of this
      module stashes both values before every save. */
  method TaskNotifications(db: Database, instance: Task, pre: PreImage, created: bool)
    requires db.Valid()
    requires instance.project in db.tables.projects
    requires instance.assignedTo.Some? ==> instance.assignedTo.value in db.tables.users
    modifies db
    ensures db.Valid()
    ensures db.Appended(TaskNotices(pre, instance, created, old(db.tables.projects[instance.project].owner), old(db.tables.users.Keys)))
  {
    var owner := db.tables.projects[instance.project].owner;
    ProjectRowFacts(db.tables, db.nextId, instance.project);
    if created {
      if instance.assignedTo.Some? {
        Notify(db, [instance.assignedTo], AssignedMessage(instance.title));
      }
      return;
    }
    NotifyAssignment(db, instance, pre);
    ghost var t1, n1 := db.tables, db.nextId;
    NotifyStatus(db, instance, pre, owner);
    ExtendsTrans(old(db.tables), old(db.nextId), db.clock, t1, n1, db.clock, db.tables, db.nextId, db.clock,
                 AssignmentNotices(pre, instance, old(db.tables.users.Keys)), StatusNotices(pre, instance, owner));
  }

  /** `_comment_notifications`. */
  method CommentNotifications(db: Database, comment: TaskComment, created: bool)
    requires db.Valid() && comment.task in db.tables.tasks
    modifies db
    ensures db.Valid()
    ensures var task := old(db.tables.tasks[comment.task]);
            db.Appended(CommentNotices(comment.content, created, task, old(db.TaskOwner(comment.task))))
  {
    if !created {
      return;
    }
    var task := db.tables.tasks[comment.task];
    TaskRowFacts(db.tables, db.nextId, comment.task);
    var owner := db.tables.projects[task.project].owner;
    var candidates := [Some(owner), task.assignedTo];
    assert forall i :: 0 <= i < |candidates| && candidates[i].Some? ==> candidates[i].value in db.tables.users;
    Notify(db, candidates, CommentMessage(task.title, comment.content));
  }

  /** `_attachment_notifications`. */
  method AttachmentNotifications(db: Database, attachment: TaskAttachment, created: bool)
    requires db.Valid() && attachment.task in db.tables.tasks
    modifies db
    ensures db.Valid()
    ensures var task := old(db.tables.tasks[attachment.task]);
            db.Appended(AttachmentNotices(attachment.fileName, created, task, old(db.TaskOwner(attachment.task))))
  {
    if !created {
      return;
    }
    var task := db.tables.tasks[attachment.task];
    TaskRowFacts(db.tables, db.nextId, attachment.task);
    var owner := db.tables.projects[task.project].owner;
    var candidates := [Some(owner), task.assignedTo];
    assert forall i :: 0 <= i < |candidates| && candidates[i].Some? ==> candidates[i].value in db.tables.users;
    Notify(db, candidates, AttachmentMessage(task.title, attachment.fileName));
  }
}

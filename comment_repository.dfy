/** The owner-scoped comment query of `CommentRepository` (and the identical
    one of `TaskRepository`): `TaskComment.objects.filter(task_id=...,
    task__project__owner=user)`. `TaskComment` declares no ordering and the
    query has no `order_by`, so the database may return the rows in any
    order; the model fixes one, table (insertion) order. Creating a comment
    is `Persist.SaveNewComment`. */
module CommentRepository {
  import opened Base
  import opened Models
  import opened Store

  /** Whether comment `c` passes the filter: it belongs to task `taskId`,
      and the join through its task and that task's project reaches `user`
      as the owner. */
  predicate OwnerScoped(t: Tables, taskId: Pk, user: Pk, c: TaskComment)
  {
    && c.task == taskId
    && c.task in t.tasks
    && t.tasks[c.task].project in t.projects
    && t.projects[t.tasks[c.task].project].owner == user
  }

  /** The owner of the project of task `taskId`, when the join reaches one. */
  function ProjectOwnerOf(t: Tables, taskId: Pk): Option<Pk>
  {
    if taskId in t.tasks && t.tasks[taskId].project in t.projects
    then Some(t.projects[t.tasks[taskId].project].owner)
    else None
  }

  /** `get_task_comments(task_id, user)`: the comments of that task, and
      only when `user` owns the task's project. */
  function GetTaskComments(t: Tables, taskId: Pk, user: Pk): (r: seq<TaskComment>)
    ensures forall c :: c in r ==> c in t.comments && c.task == taskId
    ensures forall c :: c in r ==> ProjectOwnerOf(t, taskId) == Some(user)
    ensures forall c :: c in t.comments && c.task == taskId && ProjectOwnerOf(t, taskId) == Some(user) ==> c in r
  {
    Filter(t.comments, c => OwnerScoped(t, taskId, user, c))
  }

  /** Anyone but the owner of the task's project (or anyone at all, when the
      task does not exist) gets an empty result. */
  lemma NonOwnerSeesNothing(t: Tables, taskId: Pk, user: Pk)
    requires ProjectOwnerOf(t, taskId) != Some(user)
    ensures GetTaskComments(t, taskId, user) == []
  {
    FilterNone(t.comments, c => OwnerScoped(t, taskId, user, c));
  }

  /** For the owner the result is every comment of the task (in the order
      the model fixes): the ownership test filters nothing out. */
  lemma {:induction false} OwnerSeesAllComments(t: Tables, taskId: Pk, user: Pk)
    requires ProjectOwnerOf(t, taskId) == Some(user)
    ensures GetTaskComments(t, taskId, user) == Filter(t.comments, (c: TaskComment) => c.task == taskId)
  {
    FilterAgree(t.comments, c => OwnerScoped(t, taskId, user, c), (c: TaskComment) => c.task == taskId);
  }

  /** A comment appended to the table shows up in the owner's listing of its
      task (last, in the order the model fixes) and nowhere else; every other
      listing is as before (whatever else changed, as long as tasks and
      projects did not). */
  lemma {:induction false} AppendedCommentListed(t: Tables, t2: Tables, c: TaskComment, taskId: Pk, user: Pk)
    requires t2.comments == t.comments + [c] && t2.tasks == t.tasks && t2.projects == t.projects
    ensures GetTaskComments(t2, taskId, user)
            == GetTaskComments(t, taskId, user) + (if OwnerScoped(t, taskId, user, c) then [c] else [])
  {
    var p2 := (x: TaskComment) => OwnerScoped(t2, taskId, user, x);
    var p := (x: TaskComment) => OwnerScoped(t, taskId, user, x);
    FilterAppend(t.comments, [c], p2);
    FilterAgree(t.comments, p2, p);
    assert Filter([c], p2) == Filter([], p2) + (if p2(c) then [c] else []);
  }
}

/** The persisted entities of the project manager (projects, tasks, comments,
    attachments, memberships, notifications, users), their enumerations and
    defaults, referential integrity, and what the database does to dependent
    rows when a user, a project or a task is deleted (`on_delete`). */
module Models {
  import opened Base

  // ---------------------------------------------------------------- enums

  datatype TaskStatus = Todo | InProgress | Completed
  datatype Priority = Low | Medium | High
  datatype ProjectStatus = Planned | ProjectInProgress | ProjectCompleted | OnHold
  datatype Role = OwnerRole | MemberRole | ViewerRole

  /** The stored spelling of a task status (the first element of each choice). */
  function StatusName(s: TaskStatus): string
  {
    match s
    case Todo => "todo"
    case InProgress => "in_progress"
    case Completed => "completed"
  }

  // ---------------------------------------------------------------- rows

  datatype User = User(email: string, fullName: string, isActive: bool, isStaff: bool, isSuperuser: bool)

  datatype Project = Project(
    name: string, description: string, owner: Pk,
    startDate: nat, endDate: Option<nat>, status: ProjectStatus)

  datatype Task = Task(
    id: Pk, project: Pk, title: string, description: string,
    status: TaskStatus, priority: Priority,
    assignedTo: Option<Pk>, dueDate: nat, createdBy: Option<Pk>)

  datatype TaskComment = TaskComment(id: Pk, task: Pk, author: Pk, content: string, isDeleted: bool)

  datatype TaskAttachment = TaskAttachment(id: Pk, task: Pk, fileName: string)

  datatype ProjectMember = ProjectMember(id: Pk, project: Pk, user: Pk, role: Role)

  /** The recipient is a non-null user key by construction. */
  datatype Notification = Notification(id: Pk, recipient: Pk, message: string, isRead: bool, createdAt: nat)

  // ---------------------------------------------------------------- creation defaults

  /** The keyword arguments of `Task.objects.create(...)`; a field left out
      takes the model default. */
  datatype TaskFields = TaskFields(
    project: Pk, title: string, description: Option<string>,
    status: Option<TaskStatus>, priority: Option<Priority>,
    assignedTo: Option<Pk>, dueDate: nat, createdBy: Option<Pk>)

  /** A task row built from creation arguments: status defaults to todo,
      priority to low and the description to the empty text. */
  function NewTask(id: Pk, f: TaskFields): (t: Task)
    ensures t.id == id && t.project == f.project && t.title == f.title
    ensures t.status == (if f.status.Some? then f.status.value else Todo)
    ensures t.priority == (if f.priority.Some? then f.priority.value else Low)
    ensures t.description == (if f.description.Some? then f.description.value else "")
    ensures t.assignedTo == f.assignedTo && t.createdBy == f.createdBy && t.dueDate == f.dueDate
  {
    Task(id, f.project, f.title,
         if f.description.Some? then f.description.value else "",
         if f.status.Some? then f.status.value else Todo,
         if f.priority.Some? then f.priority.value else Low,
         f.assignedTo, f.dueDate, f.createdBy)
  }

  /** A project row: status defaults to planned. */
  function NewProject(name: string, description: string, owner: Pk, startDate: nat,
                      endDate: Option<nat>, status: Option<ProjectStatus>): (p: Project)
    ensures p.owner == owner && p.name == name
    ensures p.status == (if status.Some? then status.value else Planned)
  {
    Project(name, description, owner, startDate, endDate,
            if status.Some? then status.value else Planned)
  }

  /** A comment row: a new comment is not soft-deleted. */
  function NewComment(id: Pk, task: Pk, author: Pk, content: string): (c: TaskComment)
    ensures c.id == id && c.task == task && c.author == author && c.content == content
    ensures !c.isDeleted
  {
    TaskComment(id, task, author, content, false)
  }

  /** A membership row: the role defaults to member. */
  function NewMember(id: Pk, project: Pk, user: Pk, role: Option<Role>): (m: ProjectMember)
    ensures m.id == id && m.project == project && m.user == user
    ensures m.role == (if role.Some? then role.value else MemberRole)
  {
    ProjectMember(id, project, user, if role.Some? then role.value else MemberRole)
  }

  /** A notification row: a new notification is unread. */
  function NewNotification(id: Pk, recipient: Pk, message: string, at: nat): (n: Notification)
    ensures n.id == id && n.recipient == recipient && n.message == message && n.createdAt == at
    ensures !n.isRead
  {
    Notification(id, recipient, message, false, at)
  }

  /** A user row built by the user manager: active and not staff unless the
      extra fields say otherwise. */
  function NewUser(email: string, fullName: Option<string>, isActive: Option<bool>,
                   isStaff: Option<bool>, isSuperuser: Option<bool>): (u: User)
    ensures u.email == email
    ensures u.isActive == (isActive != Some(false))
    ensures u.isStaff == (isStaff == Some(true))
    ensures u.isSuperuser == (isSuperuser == Some(true))
  {
    User(email,
         if fullName.Some? then fullName.value else "",
         if isActive.Some? then isActive.value else true,
         if isStaff.Some? then isStaff.value else false,
         if isSuperuser.Some? then isSuperuser.value else false)
  }

  /** `str(notification)`: "Notification to <email> - " followed by at most
      the first 30 characters of the message. */
  function NotificationLabel(n: Notification, recipientEmail: string): (r: string)
    ensures |r| == 19 + |recipientEmail| + (if |n.message| < 30 then |n.message| else 30)
    ensures r[19 + |recipientEmail|..] <= n.message
    ensures |n.message| <= 30 ==> r[19 + |recipientEmail|..] == n.message
    ensures r[..19 + |recipientEmail|] == "Notification to " + recipientEmail + " - "
  {
    var shown := if |n.message| <= 30 then n.message else n.message[..30];
    var r := "Notification to " + recipientEmail + " - " + shown;
    assert r[19 + |recipientEmail|..] == shown;
    assert r[..19 + |recipientEmail|] == "Notification to " + recipientEmail + " - ";
    r
  }

  // ---------------------------------------------------------------- the database

  /** All tables. Tasks, projects and users are keyed by primary key; the
      other tables are kept in insertion (primary-key) order. */
  datatype Tables = Tables(
    users: map<Pk, User>,
    projects: map<Pk, Project>,
    tasks: map<Pk, Task>,
    comments: seq<TaskComment>,
    attachments: seq<TaskAttachment>,
    members: seq<ProjectMember>,
    notifications: seq<Notification>)

  const EmptyTables := Tables(map[], map[], map[], [], [], [], [])

  predicate TaskRefsOk(t: Tables, task: Task)
  {
    && task.project in t.projects
    && (task.assignedTo.Some? ==> task.assignedTo.value in t.users)
    && (task.createdBy.Some? ==> task.createdBy.value in t.users)
  }

  /** At most one membership row per (project, user) pair (`unique_together`). */
  predicate MembersUnique(ms: seq<ProjectMember>)
  {
    forall i, j :: 0 <= i < j < |ms| ==> ms[i].project != ms[j].project || ms[i].user != ms[j].user
  }

  /** No two users share an email (`unique=True`). */
  predicate EmailsUnique(users: map<Pk, User>)
  {
    forall a, b :: a in users && b in users && a != b ==> users[a].email != users[b].email
  }

  /** Referential integrity and uniqueness constraints of the schema. */
  predicate WellFormed(t: Tables)
  {
    && EmailsUnique(t.users)
    && (forall p :: p in t.projects ==> t.projects[p].owner in t.users)
    && (forall k :: k in t.tasks ==> t.tasks[k].id == k && TaskRefsOk(t, t.tasks[k]))
    && (forall c :: c in t.comments ==> c.task in t.tasks && c.author in t.users)
    && (forall a :: a in t.attachments ==> a.task in t.tasks)
    && (forall m :: m in t.members ==> m.project in t.projects && m.user in t.users)
    && (forall n :: n in t.notifications ==> n.recipient in t.users)
    && MembersUnique(t.members)
  }

  lemma EmptyTablesWellFormed()
    ensures WellFormed(EmptyTables)
  {
  }

  lemma {:induction false} FilterKeepsMembersUnique(ms: seq<ProjectMember>, keep: ProjectMember -> bool)
    requires MembersUnique(ms)
    ensures MembersUnique(Filter(ms, keep))
  {
    if ms != [] {
      var init := ms[..|ms| - 1];
      assert MembersUnique(init);
      FilterKeepsMembersUnique(init, keep);
      var last := ms[|ms| - 1];
      if keep(last) {
        var f := Filter(init, keep);
        forall m | m in f
          ensures m.project != last.project || m.user != last.user
        {
          var i :| 0 <= i < |init| && init[i] == m;
          assert ms[i] == m;
        }
      }
    }
  }

  // ---------------------------------------------------------------- on_delete

  /** Deleting a task deletes its comments and attachments (CASCADE). */
  function DeleteTask(t: Tables, id: Pk): (r: Tables)
    ensures id !in r.tasks && r.tasks == t.tasks - {id}
    ensures forall c :: c in r.comments <==> c in t.comments && c.task != id
    ensures forall a :: a in r.attachments <==> a in t.attachments && a.task != id
    ensures r.users == t.users && r.projects == t.projects && r.members == t.members
    ensures r.notifications == t.notifications
  {
    t.(tasks := t.tasks - {id},
       comments := Filter(t.comments, (c: TaskComment) => c.task != id),
       attachments := Filter(t.attachments, (a: TaskAttachment) => a.task != id))
  }

  lemma DeleteTaskWellFormed(t: Tables, id: Pk)
    requires WellFormed(t)
    ensures WellFormed(DeleteTask(t, id))
  {
  }

  /** The tasks of the projects in `ps`. */
  function TasksOf(t: Tables, ps: set<Pk>): set<Pk>
  {
    set k | k in t.tasks && t.tasks[k].project in ps
  }

  /** Deleting a project deletes its tasks (and through them their comments
      and attachments) and its membership rows (CASCADE). */
  function DeleteProject(t: Tables, id: Pk): (r: Tables)
    ensures id !in r.projects && r.projects == t.projects - {id}
    ensures r.users == t.users && r.notifications == t.notifications
    ensures forall k :: k in r.tasks <==> k in t.tasks && t.tasks[k].project != id
    ensures forall k :: k in r.tasks ==> r.tasks[k] == t.tasks[k]
    ensures forall c :: c in r.comments <==> c in t.comments && !(c.task in t.tasks && t.tasks[c.task].project == id)
    ensures forall a :: a in r.attachments <==> a in t.attachments && !(a.task in t.tasks && t.tasks[a.task].project == id)
    ensures forall m :: m in r.members <==> m in t.members && m.project != id
  {
    var gone := TasksOf(t, {id});
    t.(projects := t.projects - {id},
       tasks := t.tasks - gone,
       comments := Filter(t.comments, (c: TaskComment) => c.task !in gone),
       attachments := Filter(t.attachments, (a: TaskAttachment) => a.task !in gone),
       members := Filter(t.members, (m: ProjectMember) => m.project != id))
  }

  lemma DeleteProjectWellFormed(t: Tables, id: Pk)
    requires WellFormed(t)
    ensures WellFormed(DeleteProject(t, id))
  {
    var r := DeleteProject(t, id);
    FilterKeepsMembersUnique(t.members, (m: ProjectMember) => m.project != id);
    forall c | c in r.comments
      ensures c.task in r.tasks && c.author in r.users
    {
    }
  }

  /** `assigned_to` after its user is deleted (SET_NULL). */
  function Unassign(task: Task, u: Pk): Task
  {
    if task.assignedTo == Some(u) then task.(assignedTo := None) else task
  }

  /** Deleting a user deletes the projects they own (with those projects'
      tasks), the tasks they created, their comments, memberships and
      notifications (CASCADE), and sets `assigned_to` to null on the
      remaining tasks assigned to them (SET_NULL). */
  function DeleteUser(t: Tables, u: Pk): (r: Tables)
    ensures u !in r.users && r.users == t.users - {u}
    ensures r.projects == t.projects - OwnedBy(t, u)
    ensures forall k :: k in r.tasks <==> k in t.tasks && k !in TasksGoneWith(t, u)
    ensures forall k :: k in r.tasks ==> r.tasks[k].assignedTo != Some(u)
    ensures forall k :: k in r.tasks ==> k in t.tasks && r.tasks[k] == Unassign(t.tasks[k], u)
    ensures forall c :: c in r.comments <==> c in t.comments && c.task !in TasksGoneWith(t, u) && c.author != u
    ensures forall a :: a in r.attachments <==> a in t.attachments && a.task !in TasksGoneWith(t, u)
    ensures forall m :: m in r.members <==> m in t.members && m.project !in OwnedBy(t, u) && m.user != u
    ensures forall n :: n in r.notifications <==> n in t.notifications && n.recipient != u
  {
    var ownedProjects := OwnedBy(t, u);
    var gone := TasksGoneWith(t, u);
    t.(users := t.users - {u},
       projects := t.projects - ownedProjects,
       tasks := map k | k in t.tasks && k !in gone :: Unassign(t.tasks[k], u),
       comments := Filter(t.comments, (c: TaskComment) => c.task !in gone && c.author != u),
       attachments := Filter(t.attachments, (a: TaskAttachment) => a.task !in gone),
       members := Filter(t.members, (m: ProjectMember) => m.project !in ownedProjects && m.user != u),
       notifications := Filter(t.notifications, (n: Notification) => n.recipient != u))
  }

  /** A task assigned to the deleted user survives, unassigned, unless its
      project was owned by that user or that user created it. */
  lemma {:induction false} DeleteUserKeepsAssignedTasks(t: Tables, u: Pk, k: Pk)
    requires WellFormed(t)
    requires k in t.tasks && t.tasks[k].assignedTo == Some(u)
    requires t.projects[t.tasks[k].project].owner != u && t.tasks[k].createdBy != Some(u)
    ensures k in DeleteUser(t, u).tasks
    ensures DeleteUser(t, u).tasks[k] == t.tasks[k].(assignedTo := None)
  {
    assert t.tasks[k].project !in OwnedBy(t, u);
    assert k !in TasksGoneWith(t, u);
  }

  /** The projects deleted with user `u`, and the tasks deleted with them. */
  function OwnedBy(t: Tables, u: Pk): set<Pk>
  {
    set p | p in t.projects && t.projects[p].owner == u
  }

  function TasksGoneWith(t: Tables, u: Pk): set<Pk>
  {
    TasksOf(t, OwnedBy(t, u)) + set k | k in t.tasks && t.tasks[k].createdBy == Some(u)
  }

  lemma DeleteUserTasksWellFormed(t: Tables, u: Pk)
    requires WellFormed(t)
    ensures var r := DeleteUser(t, u);
      forall k :: k in r.tasks ==> r.tasks[k].id == k && TaskRefsOk(r, r.tasks[k])
  {
    var r := DeleteUser(t, u);
    forall k | k in r.tasks
      ensures r.tasks[k].id == k && TaskRefsOk(r, r.tasks[k])
    {
      assert k !in TasksGoneWith(t, u);
      assert t.tasks[k].project !in OwnedBy(t, u);
    }
  }

  lemma DeleteUserRowsWellFormed(t: Tables, u: Pk)
    requires WellFormed(t)
    ensures var r := DeleteUser(t, u);
      && (forall c :: c in r.comments ==> c.task in r.tasks && c.author in r.users)
      && (forall a :: a in r.attachments ==> a.task in r.tasks)
      && (forall m :: m in r.members ==> m.project in r.projects && m.user in r.users)
  {
    var r := DeleteUser(t, u);
    assert forall k :: k in r.tasks <==> k in t.tasks && k !in TasksGoneWith(t, u);
  }

  lemma DeleteUserWellFormed(t: Tables, u: Pk)
    requires WellFormed(t)
    ensures WellFormed(DeleteUser(t, u))
  {
    var r := DeleteUser(t, u);
    DeleteUserTasksWellFormed(t, u);
    DeleteUserRowsWellFormed(t, u);
    FilterKeepsMembersUnique(t.members, (m: ProjectMember) => m.project !in OwnedBy(t, u) && m.user != u);
    assert EmailsUnique(r.users);
  }
}

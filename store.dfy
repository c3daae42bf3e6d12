/** The database as the ORM sees it: every table, the primary-key sequence,
    the clock that stamps `created_at`, and which receiver modules are
    connected to `post_save`. The methods here are the single-row INSERT and
    UPDATE statements, each with the constraint checks the schema declares;
    the signal receivers run on top of them (module Persist). */
module Store {
  import opened Base
  import opened Models

  /** A notification about to be written: who receives it and what it says. */
  datatype Send = Send(recipient: Pk, message: string)

  /** Which receiver modules are connected to `post_save` (decided by app
      configuration that is not part of this model). */
  datatype Wiring = Wiring(projectSignals: bool, notificationSignals: bool)

  /** The rows written for `sends`, with consecutive ids from `start`, all
      stamped `at` and unread. */
  function Rows(sends: seq<Send>, start: Pk, at: nat): (rows: seq<Notification>)
    ensures |rows| == |sends|
  {
    seq(|sends|, i requires 0 <= i < |sends| => NewNotification(start + i, sends[i].recipient, sends[i].message, at))
  }

  lemma RowsAppend(a: seq<Send>, b: seq<Send>, start: Pk, at: nat)
    ensures Rows(a + b, start, at) == Rows(a, start, at) + Rows(b, start + |a|, at)
  {
  }

  /** The notification table after `row` is saved over the row that has its
      primary key: an UPDATE writes every column of the instance. */
  function Replaced(ns: seq<Notification>, row: Notification): (r: seq<Notification>)
    ensures |r| == |ns|
  {
    seq(|ns|, i requires 0 <= i < |ns| => if ns[i].id == row.id then row else ns[i])
  }

  /** `t, next, clock` is `t0, next0, clock0` with exactly the rows for
      `sends` appended to the notification table. */
  predicate Extends(t0: Tables, next0: Pk, clock0: nat, t: Tables, next: Pk, clock: nat, sends: seq<Send>)
  {
    && t == t0.(notifications := t0.notifications + Rows(sends, next0, clock0))
    && next as int == next0 + |sends|
    && clock == clock0
  }

  lemma ExtendsTrans(t0: Tables, n0: Pk, c0: nat, t1: Tables, n1: Pk, c1: nat, t2: Tables, n2: Pk, c2: nat,
                     a: seq<Send>, b: seq<Send>)
    requires Extends(t0, n0, c0, t1, n1, c1, a) && Extends(t1, n1, c1, t2, n2, c2, b)
    ensures Extends(t0, n0, c0, t2, n2, c2, a + b)
  {
    RowsAppend(a, b, n0, c0);
  }

  /** Every id in use is below `next`, so `next` is a fresh primary key. */
  predicate Fresh(t: Tables, next: Pk)
  {
    && (forall k :: k in t.users ==> k < next)
    && (forall k :: k in t.projects ==> k < next)
    && (forall k :: k in t.tasks ==> k < next)
    && (forall c :: c in t.comments ==> c.id < next)
    && (forall a :: a in t.attachments ==> a.id < next)
    && (forall m :: m in t.members ==> m.id < next)
    && (forall n :: n in t.notifications ==> n.id < next)
  }

  /** The database invariant, `WellFormed(t) && Fresh(t, next)`, stated one
      row (or pair of rows) at a time: each quantifier below only yields a
      fact about a row when that row's predicate is mentioned, which keeps
      the invariant from flooding every proof that carries it.
      `InvIsWellFormedAndFresh` shows the two forms agree. */
  predicate UserRowOk(t: Tables, next: Pk, a: Pk, b: Pk)
  {
    && (a in t.users ==> a < next)
    && (a in t.users && b in t.users && a != b ==> t.users[a].email != t.users[b].email)
  }

  predicate ProjectRowOk(t: Tables, next: Pk, p: Pk)
  {
    p in t.projects ==> p < next && t.projects[p].owner in t.users
  }

  predicate TaskRowOk(t: Tables, next: Pk, k: Pk)
  {
    k in t.tasks ==> k < next && t.tasks[k].id == k && TaskRefsOk(t, t.tasks[k])
  }

  predicate CommentRowOk(t: Tables, next: Pk, c: TaskComment)
  {
    c in t.comments ==> c.id < next && c.task in t.tasks && c.author in t.users
  }

  predicate AttachmentRowOk(t: Tables, next: Pk, a: TaskAttachment)
  {
    a in t.attachments ==> a.id < next && a.task in t.tasks
  }

  predicate MemberRowOk(t: Tables, next: Pk, m: ProjectMember)
  {
    m in t.members ==> m.id < next && m.project in t.projects && m.user in t.users
  }

  predicate MemberPairOk(t: Tables, i: int, j: int)
  {
    0 <= i < j < |t.members| ==>
      t.members[i].project != t.members[j].project || t.members[i].user != t.members[j].user
  }

  predicate NotificationRowOk(t: Tables, next: Pk, n: Notification)
  {
    n in t.notifications ==> n.id < next && n.recipient in t.users
  }

  predicate NotificationPairOk(t: Tables, i: int, j: int)
  {
    0 <= i < j < |t.notifications| ==> t.notifications[i].id != t.notifications[j].id
  }

  /** No two notification rows share a primary key. */
  predicate NotificationIdsDistinct(ns: seq<Notification>)
  {
    forall i, j :: 0 <= i < j < |ns| ==> ns[i].id != ns[j].id
  }

  ghost predicate Inv(t: Tables, next: Pk)
  {
    && (forall a, b :: UserRowOk(t, next, a, b))
    && (forall p :: ProjectRowOk(t, next, p))
    && (forall k :: TaskRowOk(t, next, k))
    && (forall c :: CommentRowOk(t, next, c))
    && (forall a :: AttachmentRowOk(t, next, a))
    && (forall m :: MemberRowOk(t, next, m))
    && (forall i, j :: MemberPairOk(t, i, j))
    && (forall n :: NotificationRowOk(t, next, n))
    && (forall i, j :: NotificationPairOk(t, i, j))
  }

  lemma InvIsWellFormedAndFresh(t: Tables, next: Pk)
    ensures Inv(t, next) <==> WellFormed(t) && Fresh(t, next) && NotificationIdsDistinct(t.notifications)
  {
    if Inv(t, next) {
      forall a, b | a in t.users && b in t.users && a != b
        ensures t.users[a].email != t.users[b].email
      {
        assert UserRowOk(t, next, a, b);
      }
      forall k | k in t.users
        ensures k < next
      {
        assert UserRowOk(t, next, k, k);
      }
      forall p | p in t.projects
        ensures p < next && t.projects[p].owner in t.users
      {
        assert ProjectRowOk(t, next, p);
      }
      forall k | k in t.tasks
        ensures k < next && t.tasks[k].id == k && TaskRefsOk(t, t.tasks[k])
      {
        assert TaskRowOk(t, next, k);
      }
      forall c | c in t.comments
        ensures c.id < next && c.task in t.tasks && c.author in t.users
      {
        assert CommentRowOk(t, next, c);
      }
      forall a | a in t.attachments
        ensures a.id < next && a.task in t.tasks
      {
        assert AttachmentRowOk(t, next, a);
      }
      forall m | m in t.members
        ensures m.id < next && m.project in t.projects && m.user in t.users
      {
        assert MemberRowOk(t, next, m);
      }
      forall i, j | 0 <= i < j < |t.members|
        ensures t.members[i].project != t.members[j].project || t.members[i].user != t.members[j].user
      {
        assert MemberPairOk(t, i, j);
      }
      forall n | n in t.notifications
        ensures n.id < next && n.recipient in t.users
      {
        assert NotificationRowOk(t, next, n);
      }
      forall i, j | 0 <= i < j < |t.notifications|
        ensures t.notifications[i].id != t.notifications[j].id
      {
        assert NotificationPairOk(t, i, j);
      }
    }
  }

  /** What the invariant says about one stored task: its key, its foreign
      keys, and that its project's owner exists. */
  lemma TaskRowFacts(t: Tables, next: Pk, k: Pk)
    requires Inv(t, next) && k in t.tasks
    ensures t.tasks[k].id == k && TaskRefsOk(t, t.tasks[k])
    ensures t.projects[t.tasks[k].project].owner in t.users
  {
    assert TaskRowOk(t, next, k);
    assert ProjectRowOk(t, next, t.tasks[k].project);
  }

  /** The owner of a stored project exists. */
  lemma ProjectRowFacts(t: Tables, next: Pk, p: Pk)
    requires Inv(t, next) && p in t.projects
    ensures t.projects[p].owner in t.users
  {
    assert ProjectRowOk(t, next, p);
  }

  /** The rows of `t2` that the invariant already vouched for in `t` stay
      sound when the tables they refer to only grew and the key sequence
      only advanced. */
  lemma InvCarries(t: Tables, next: Pk, t2: Tables, next2: Pk)
    requires Inv(t, next) && next <= next2
    ensures t2.users == t.users ==> forall a, b :: UserRowOk(t2, next2, a, b)
    ensures t2.projects == t.projects && t.users.Keys <= t2.users.Keys ==>
              forall p :: ProjectRowOk(t2, next2, p)
    ensures t2.tasks == t.tasks && t.projects.Keys <= t2.projects.Keys && t.users.Keys <= t2.users.Keys ==>
              forall k :: TaskRowOk(t2, next2, k)
    ensures t2.comments == t.comments && t.tasks.Keys <= t2.tasks.Keys && t.users.Keys <= t2.users.Keys ==>
              forall c :: CommentRowOk(t2, next2, c)
    ensures t2.attachments == t.attachments && t.tasks.Keys <= t2.tasks.Keys ==>
              forall a :: AttachmentRowOk(t2, next2, a)
    ensures t2.members == t.members && t.projects.Keys <= t2.projects.Keys && t.users.Keys <= t2.users.Keys ==>
              forall m :: MemberRowOk(t2, next2, m)
    ensures t2.members == t.members ==> forall i, j :: MemberPairOk(t2, i, j)
    ensures t2.notifications == t.notifications && t.users.Keys <= t2.users.Keys ==>
              forall n :: NotificationRowOk(t2, next2, n)
    ensures t2.notifications == t.notifications ==> forall i, j :: NotificationPairOk(t2, i, j)
  {
    if t2.users == t.users {
      forall a, b ensures UserRowOk(t2, next2, a, b) {
        assert UserRowOk(t, next, a, b);
      }
    }
    if t2.projects == t.projects && t.users.Keys <= t2.users.Keys {
      forall p ensures ProjectRowOk(t2, next2, p) {
        assert ProjectRowOk(t, next, p);
      }
    }
    if t2.tasks == t.tasks && t.projects.Keys <= t2.projects.Keys && t.users.Keys <= t2.users.Keys {
      forall k ensures TaskRowOk(t2, next2, k) {
        assert TaskRowOk(t, next, k);
      }
    }
    if t2.comments == t.comments && t.tasks.Keys <= t2.tasks.Keys && t.users.Keys <= t2.users.Keys {
      forall c ensures CommentRowOk(t2, next2, c) {
        assert CommentRowOk(t, next, c);
      }
    }
    if t2.attachments == t.attachments && t.tasks.Keys <= t2.tasks.Keys {
      forall a ensures AttachmentRowOk(t2, next2, a) {
        assert AttachmentRowOk(t, next, a);
      }
    }
    if t2.members == t.members && t.projects.Keys <= t2.projects.Keys && t.users.Keys <= t2.users.Keys {
      forall m ensures MemberRowOk(t2, next2, m) {
        assert MemberRowOk(t, next, m);
      }
    }
    if t2.members == t.members {
      forall i, j ensures MemberPairOk(t2, i, j) {
        assert MemberPairOk(t, i, j);
      }
    }
    if t2.notifications == t.notifications && t.users.Keys <= t2.users.Keys {
      forall n ensures NotificationRowOk(t2, next2, n) {
        assert NotificationRowOk(t, next, n);
      }
    }
    if t2.notifications == t.notifications {
      forall i, j ensures NotificationPairOk(t2, i, j) {
        assert NotificationPairOk(t, i, j);
      }
    }
  }

  lemma AppendNotificationKeeps(t: Tables, next: Pk, n: Notification)
    requires Inv(t, next) && n.recipient in t.users && n.id == next
    ensures Inv(t.(notifications := t.notifications + [n]), next + 1)
  {
    var t2 := t.(notifications := t.notifications + [n]);
    var next2 := next + 1;
    InvCarries(t, next, t2, next2);
    forall x ensures NotificationRowOk(t2, next2, x) {
      assert NotificationRowOk(t, next, x);
    }
    forall i, j ensures NotificationPairOk(t2, i, j) {
      assert NotificationPairOk(t, i, j);
      if 0 <= i < j == |t.notifications| {
        assert NotificationRowOk(t, next, t.notifications[i]);
      }
    }
  }

  lemma ReplaceNotificationKeeps(t: Tables, next: Pk, row: Notification)
    requires Inv(t, next) && row.recipient in t.users
    ensures Inv(t.(notifications := Replaced(t.notifications, row)), next)
  {
    var t2 := t.(notifications := Replaced(t.notifications, row));
    InvCarries(t, next, t2, next);
    forall x ensures NotificationRowOk(t2, next, x) {
      if x in t2.notifications {
        var i :| 0 <= i < |t2.notifications| && t2.notifications[i] == x;
        assert NotificationRowOk(t, next, t.notifications[i]);
      }
    }
    forall i, j ensures NotificationPairOk(t2, i, j) {
      assert NotificationPairOk(t, i, j);
    }
  }

  lemma InsertTaskKeeps(t: Tables, next: Pk, row: Task)
    requires Inv(t, next) && TaskRefsOk(t, row) && row.id <= next
    ensures Inv(t.(tasks := t.tasks[row.id := row]), if row.id == next then next + 1 else next)
  {
    var t2, next2 := t.(tasks := t.tasks[row.id := row]), if row.id == next then next + 1 else next;
    InvCarries(t, next, t2, next2);
    forall k ensures TaskRowOk(t2, next2, k) {
      assert TaskRowOk(t, next, k);
    }
    forall c ensures CommentRowOk(t2, next2, c) {
      assert CommentRowOk(t, next, c);
    }
    forall a ensures AttachmentRowOk(t2, next2, a) {
      assert AttachmentRowOk(t, next, a);
    }
  }

  lemma InsertCommentKeeps(t: Tables, next: Pk, c: TaskComment)
    requires Inv(t, next) && c.task in t.tasks && c.author in t.users && c.id == next
    ensures Inv(t.(comments := t.comments + [c]), next + 1)
  {
    var t2 := t.(comments := t.comments + [c]);
    var next2 := next + 1;
    InvCarries(t, next, t2, next2);
    forall x ensures CommentRowOk(t2, next2, x) {
      assert CommentRowOk(t, next, x);
    }
  }

  lemma InsertAttachmentKeeps(t: Tables, next: Pk, a: TaskAttachment)
    requires Inv(t, next) && a.task in t.tasks && a.id == next
    ensures Inv(t.(attachments := t.attachments + [a]), next + 1)
  {
    var t2 := t.(attachments := t.attachments + [a]);
    var next2 := next + 1;
    InvCarries(t, next, t2, next2);
    forall x ensures AttachmentRowOk(t2, next2, x) {
      assert AttachmentRowOk(t, next, x);
    }
  }

  lemma InsertMemberKeeps(t: Tables, next: Pk, m: ProjectMember)
    requires Inv(t, next) && m.project in t.projects && m.user in t.users && m.id == next
    requires !exists x :: x in t.members && x.project == m.project && x.user == m.user
    ensures Inv(t.(members := t.members + [m]), next + 1)
  {
    var t2 := t.(members := t.members + [m]);
    var next2 := next + 1;
    InvCarries(t, next, t2, next2);
    forall x ensures MemberRowOk(t2, next2, x) {
      assert MemberRowOk(t, next, x);
    }
    forall i, j ensures MemberPairOk(t2, i, j) {
      assert MemberPairOk(t, i, j);
      if 0 <= i < j == |t.members| {
        assert t.members[i] in t.members;
      }
    }
  }

  lemma InsertUserKeeps(t: Tables, next: Pk, u: User)
    requires Inv(t, next)
    requires !exists k :: k in t.users && t.users[k].email == u.email
    ensures Inv(t.(users := t.users[next := u]), next + 1)
  {
    var t2 := t.(users := t.users[next := u]);
    var next2 := next + 1;
    InvCarries(t, next, t2, next2);
    forall a, b ensures UserRowOk(t2, next2, a, b) {
      assert UserRowOk(t, next, a, b);
      assert UserRowOk(t, next, a, a);
      assert UserRowOk(t, next, b, b);
    }
  }

  lemma InsertProjectKeeps(t: Tables, next: Pk, p: Project)
    requires Inv(t, next) && p.owner in t.users
    ensures Inv(t.(projects := t.projects[next := p]), next + 1)
  {
    var t2 := t.(projects := t.projects[next := p]);
    var next2 := next + 1;
    InvCarries(t, next, t2, next2);
    forall x ensures ProjectRowOk(t2, next2, x) {
      assert ProjectRowOk(t, next, x);
    }
  }

  class Database {
    var tables: Tables
    var nextId: Pk
    var clock: nat
    const wiring: Wiring

    ghost predicate Valid()
      reads this
    {
      Inv(tables, nextId)
    }

    constructor (w: Wiring)
      ensures Valid()
      ensures tables == EmptyTables && nextId == 1 && clock == 0 && wiring == w
    {
      tables := EmptyTables;
      nextId := 1;
      clock := 0;
      wiring := w;
    }

    /** The owner of the project that stored task `k` belongs to. */
    ghost function TaskOwner(k: Pk): (o: Pk)
      requires Valid() && k in tables.tasks
      reads this
      ensures tables.tasks[k].project in tables.projects && o == tables.projects[tables.tasks[k].project].owner
      ensures o in tables.users
    {
      TaskRowFacts(tables, nextId, k);
      tables.projects[tables.tasks[k].project].owner
    }

    /** The wall clock moves forward to `now`. */
    method Tick(now: nat)
      requires Valid() && clock <= now
      modifies this
      ensures Valid()
      ensures clock == now && tables == old(tables) && nextId == old(nextId)
    {
      clock := now;
    }

    /** The notification table grew by `sends`, nothing else changed. */
    twostate predicate Appended(sends: seq<Send>)
      reads this
    {
      Extends(old(tables), old(nextId), old(clock), tables, nextId, clock, sends)
    }

    /** `Notification.objects.create(recipient=..., message=...)`. A null
        recipient violates the NOT NULL constraint and nothing is written. */
    method CreateNotification(recipient: Option<Pk>, message: string) returns (ok: bool)
      requires Valid()
      requires recipient.Some? ==> recipient.value in tables.users
      modifies this
      ensures Valid()
      ensures ok == recipient.Some?
      ensures Appended(if ok then [Send(recipient.value, message)] else [])
    {
      ok := recipient.Some?;
      if ok {
        var n := NewNotification(nextId, recipient.value, message, clock);
        AppendNotificationKeeps(tables, nextId, n);
        tables := tables.(notifications := tables.notifications + [n]);
        nextId := nextId + 1;
      }
    }

    /** `notification.save()` for a stored notification: an UPDATE that
        writes every column of `row` to the row with its primary key. */
    method UpdateNotification(row: Notification)
      requires Valid() && row.recipient in tables.users
      modifies this
      ensures Valid()
      ensures nextId == old(nextId) && clock == old(clock)
      ensures tables == old(tables).(notifications := Replaced(old(tables.notifications), row))
    {
      ReplaceNotificationKeeps(tables, nextId, row);
      tables := tables.(notifications := Replaced(tables.notifications, row));
    }

    /** `INSERT` of a task under a fresh key; fails, writing nothing, when a
        foreign key (project, assignee, creator) names no row. */
    method InsertTask(f: TaskFields) returns (id: Option<Pk>)
      requires Valid()
      modifies this
      ensures Valid() && clock == old(clock)
      ensures id.Some? <==> TaskRefsOk(old(tables), NewTask(old(nextId), f))
      ensures id.Some? ==> id.value == old(nextId) && nextId == old(nextId) + 1
                           && tables == old(tables).(tasks := old(tables.tasks)[old(nextId) := NewTask(old(nextId), f)])
      ensures id.None? ==> nextId == old(nextId) && tables == old(tables)
    {
      var row := NewTask(nextId, f);
      if TaskRefsOk(tables, row) {
        InsertTaskKeeps(tables, nextId, row);
        tables := tables.(tasks := tables.tasks[row.id := row]);
        id := Some(nextId);
        nextId := nextId + 1;
      } else {
        id := None;
      }
    }

    /** `task.save()` for an instance that already has a primary key: an
        UPDATE of that row, or an INSERT under that key when the row is gone.
        Fails, writing nothing, when a foreign key names no row. */
    method PutTask(task: Task) returns (ok: bool)
      requires Valid() && task.id < nextId
      modifies this
      ensures Valid() && clock == old(clock) && nextId == old(nextId)
      ensures ok == TaskRefsOk(old(tables), task)
      ensures tables == if ok then old(tables).(tasks := old(tables.tasks)[task.id := task]) else old(tables)
    {
      ok := TaskRefsOk(tables, task);
      if ok {
        InsertTaskKeeps(tables, nextId, task);
        tables := tables.(tasks := tables.tasks[task.id := task]);
      }
    }

    /** `INSERT` of a comment; fails when the task or the author is missing. */
    method InsertComment(task: Pk, author: Pk, content: string) returns (id: Option<Pk>)
      requires Valid()
      modifies this
      ensures Valid() && clock == old(clock)
      ensures id.Some? <==> task in old(tables.tasks) && author in old(tables.users)
      ensures id.Some? ==> id.value == old(nextId) && nextId == old(nextId) + 1
                           && tables == old(tables).(comments := old(tables.comments) + [NewComment(old(nextId), task, author, content)])
      ensures id.None? ==> nextId == old(nextId) && tables == old(tables)
    {
      if task in tables.tasks && author in tables.users {
        InsertCommentKeeps(tables, nextId, NewComment(nextId, task, author, content));
        tables := tables.(comments := tables.comments + [NewComment(nextId, task, author, content)]);
        id := Some(nextId);
        nextId := nextId + 1;
      } else {
        id := None;
      }
    }

    /** `INSERT` of an attachment; fails when the task is missing. */
    method InsertAttachment(task: Pk, fileName: string) returns (id: Option<Pk>)
      requires Valid()
      modifies this
      ensures Valid() && clock == old(clock)
      ensures id.Some? <==> task in old(tables.tasks)
      ensures id.Some? ==> id.value == old(nextId) && nextId == old(nextId) + 1
                           && tables == old(tables).(attachments := old(tables.attachments) + [TaskAttachment(old(nextId), task, fileName)])
      ensures id.None? ==> nextId == old(nextId) && tables == old(tables)
    {
      if task in tables.tasks {
        InsertAttachmentKeeps(tables, nextId, TaskAttachment(nextId, task, fileName));
        tables := tables.(attachments := tables.attachments + [TaskAttachment(nextId, task, fileName)]);
        id := Some(nextId);
        nextId := nextId + 1;
      } else {
        id := None;
      }
    }

    /** Whether a membership row for (project, user) exists. */
    predicate HasMember(project: Pk, user: Pk)
      reads this
    {
      exists m :: m in tables.members && m.project == project && m.user == user
    }

    /** `INSERT` of a membership; fails on a missing project or user, and on a
        second row for the same (project, user) pair. */
    method InsertMember(project: Pk, user: Pk, role: Option<Role>) returns (id: Option<Pk>)
      requires Valid()
      modifies this
      ensures Valid() && clock == old(clock)
      ensures id.Some? <==> project in old(tables.projects) && user in old(tables.users) && !old(HasMember(project, user))
      ensures id.Some? ==> id.value == old(nextId) && nextId == old(nextId) + 1
                           && tables == old(tables).(members := old(tables.members) + [NewMember(old(nextId), project, user, role)])
      ensures id.None? ==> nextId == old(nextId) && tables == old(tables)
    {
      if project in tables.projects && user in tables.users && !HasMember(project, user) {
        var m := NewMember(nextId, project, user, role);
        InsertMemberKeeps(tables, nextId, m);
        tables := tables.(members := tables.members + [m]);
        id := Some(nextId);
        nextId := nextId + 1;
      } else {
        id := None;
      }
    }

    /** Whether some user already has this email. */
    predicate EmailTaken(email: string)
      reads this
    {
      exists k :: k in tables.users && tables.users[k].email == email
    }

    /** `INSERT` of a user; fails when the email is already taken. */
    method InsertUser(u: User) returns (id: Option<Pk>)
      requires Valid()
      modifies this
      ensures Valid() && clock == old(clock)
      ensures id.Some? <==> !old(EmailTaken(u.email))
      ensures id.Some? ==> id.value == old(nextId) && nextId == old(nextId) + 1
                           && tables == old(tables).(users := old(tables.users)[old(nextId) := u])
      ensures id.None? ==> nextId == old(nextId) && tables == old(tables)
    {
      if !EmailTaken(u.email) {
        InsertUserKeeps(tables, nextId, u);
        tables := tables.(users := tables.users[nextId := u]);
        id := Some(nextId);
        nextId := nextId + 1;
      } else {
        id := None;
      }
    }

    /** `INSERT` of a project; fails when the owner is missing. */
    method InsertProject(p: Project) returns (id: Option<Pk>)
      requires Valid()
      modifies this
      ensures Valid() && clock == old(clock)
      ensures id.Some? <==> p.owner in old(tables.users)
      ensures id.Some? ==> id.value == old(nextId) && nextId == old(nextId) + 1
                           && tables == old(tables).(projects := old(tables.projects)[old(nextId) := p])
      ensures id.None? ==> nextId == old(nextId) && tables == old(tables)
    {
      if p.owner in tables.users {
        InsertProjectKeeps(tables, nextId, p);
        tables := tables.(projects := tables.projects[nextId := p]);
        id := Some(nextId);
        nextId := nextId + 1;
      } else {
        id := None;
      }
    }
  }
}

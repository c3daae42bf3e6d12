/** `NotificationRepository`: a user's notifications newest first, lookup by
    primary key, and marking one as read. Creating a notification is
    `Store.Database.CreateNotification`. */
module NotificationRepository {
  import opened Base
  import opened Models
  import opened Store

  /** `created_at` never increases along `s` (`order_by('-created_at')`, also
      the model's default `ordering`). */
  predicate NewestFirst(s: seq<Notification>)
  {
    forall i, j :: 0 <= i < j < |s| ==> s[i].createdAt >= s[j].createdAt
  }

  /** `n` placed into a newest-first sequence, ahead of the rows it is not
      older than. */
  function Insert(n: Notification, s: seq<Notification>): (r: seq<Notification>)
    requires NewestFirst(s)
    ensures forall x :: x in r ==> x == n || x in s
    ensures NewestFirst(r) && multiset(r) == multiset(s) + multiset{n}
  {
    if s == [] || s[0].createdAt <= n.createdAt then
      [n] + s
    else
      var rest := Insert(n, s[1..]);
      assert s == [s[0]] + s[1..];
      NewerHead(s, rest, n);
      [s[0]] + rest
  }

  /** The head of a newest-first `s` can stay ahead of anything built from
      the rest of `s` and a strictly older row `n`. */
  lemma NewerHead(s: seq<Notification>, rest: seq<Notification>, n: Notification)
    requires s != [] && NewestFirst(s) && NewestFirst(rest) && n.createdAt < s[0].createdAt
    requires forall x :: x in rest ==> x == n || x in s[1..]
    ensures NewestFirst([s[0]] + rest)
  {
    forall j | 0 <= j < |rest|
      ensures rest[j].createdAt <= s[0].createdAt
    {
      if rest[j] != n {
        assert rest[j] in rest;
        var k :| 0 <= k < |s[1..]| && s[1..][k] == rest[j];
        assert s[k + 1] == rest[j];
      }
    }
  }

  /** The rows of `s` rearranged newest first. Rows created at the same
      instant may come out in any order from the database; this model puts
      the later row of the table first. */
  function SortNewestFirst(s: seq<Notification>): (r: seq<Notification>)
    ensures NewestFirst(r) && multiset(r) == multiset(s)
  {
    if s == [] then []
    else
      assert s == [s[0]] + s[1..];
      Insert(s[0], SortNewestFirst(s[1..]))
  }

  /** `get_user_notifications(user)`: exactly the notifications addressed to
      `user`, each as often as it is stored, newest first. */
  function GetUserNotifications(ns: seq<Notification>, user: Pk): (r: seq<Notification>)
    ensures NewestFirst(r)
    ensures multiset(r) == multiset(Filter(ns, (n: Notification) => n.recipient == user))
    ensures forall n :: n in r <==> n in ns && n.recipient == user
  {
    var mine := Filter(ns, (n: Notification) => n.recipient == user);
    var r := SortNewestFirst(mine);
    forall n
      ensures n in r <==> n in mine
    {
      assert n in r <==> n in multiset(r);
      assert n in mine <==> n in multiset(mine);
    }
    r
  }

  datatype LookupError = DoesNotExist

  /** `get_notification_by_id(pk)`: `Notification.objects.get(pk=pk)`. */
  function GetNotificationById(ns: seq<Notification>, pk: Pk): (r: Result<Notification, LookupError>)
    ensures r.Success? ==> r.value in ns && r.value.id == pk
    ensures r.Failure? <==> forall n :: n in ns ==> n.id != pk
  {
    if ns == [] then Failure(DoesNotExist)
    else if ns[0].id == pk then Success(ns[0])
    else
      assert ns == [ns[0]] + ns[1..];
      GetNotificationById(ns[1..], pk)
  }

  /** Because primary keys are unique the row found is the row with that
      key. */
  lemma GetByIdFindsTheRow(ns: seq<Notification>, i: nat)
    requires NotificationIdsDistinct(ns) && i < |ns|
    ensures GetNotificationById(ns, ns[i].id) == Success(ns[i])
  {
    var r := GetNotificationById(ns, ns[i].id);
    var j :| 0 <= j < |ns| && ns[j] == r.value;
    assert !(i < j) && !(j < i);
  }

  /** What `mark_as_read` writes for the stored row `n`: the same row, read. */
  function ReadCopy(n: Notification): (r: Notification)
    ensures r.isRead
    ensures r.id == n.id && r.recipient == n.recipient && r.message == n.message && r.createdAt == n.createdAt
  {
    n.(isRead := true)
  }

  /** Marking `n` read changes that one row, and only its `is_read` flag. */
  lemma {:induction false} MarkReadChangesOneRow(ns: seq<Notification>, n: Notification)
    requires NotificationIdsDistinct(ns) && n in ns
    ensures |Replaced(ns, ReadCopy(n))| == |ns|
    ensures forall i :: 0 <= i < |ns| ==> Replaced(ns, ReadCopy(n))[i] == if ns[i] == n then ReadCopy(n) else ns[i]
  {
    var k :| 0 <= k < |ns| && ns[k] == n;
    forall i | 0 <= i < |ns|
      ensures Replaced(ns, ReadCopy(n))[i] == if ns[i] == n then ReadCopy(n) else ns[i]
    {
      assert ns[i].id == n.id ==> i == k;
    }
  }

  /** Marking a notification read twice is the same as once. */
  lemma MarkReadIdempotent(ns: seq<Notification>, n: Notification)
    ensures Replaced(Replaced(ns, ReadCopy(n)), ReadCopy(n)) == Replaced(ns, ReadCopy(n))
  {
  }

  /** `mark_as_read(notification)` for a stored notification: set `is_read`
      and save, which rewrites that row and leaves every other row and table
      as it was. */
  method MarkAsRead(db: Database, n: Notification) returns (r: Notification)
    requires db.Valid() && n in db.tables.notifications
    modifies db
    ensures db.Valid() && r == ReadCopy(n)
    ensures db.nextId == old(db.nextId) && db.clock == old(db.clock)
    ensures db.tables == old(db.tables).(notifications := Replaced(old(db.tables.notifications), r))
    ensures forall i :: 0 <= i < |old(db.tables.notifications)| ==>
              db.tables.notifications[i] == if old(db.tables.notifications)[i] == n then r else old(db.tables.notifications)[i]
  {
    assert NotificationRowOk(db.tables, db.nextId, n);
    InvIsWellFormedAndFresh(db.tables, db.nextId);
    MarkReadChangesOneRow(db.tables.notifications, n);
    r := ReadCopy(n);
    db.UpdateNotification(r);
  }
}

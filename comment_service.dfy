/** `CommentService`: the read-through cached comment listing and comment
    creation. The clock the cache compares expiry times against is a
    parameter (`now`, in seconds). */
module CommentService {
  import opened Base
  import opened Models
  import opened Store
  import opened Text
  import opened Cache
  import CR = CommentRepository
  import Persist

  /** Ten minutes, in seconds. */
  const CommentsTimeout: nat := 60 * 10

  /** `f"user_{user.id}_task_{task_id}_comments"`. */
  function CommentsKey(user: Pk, taskId: Pk): string
  {
    "user_" + Decimal(user) + "_task_" + Decimal(taskId) + "_comments"
  }

  /** The key split at the two underscores that follow the numbers. */
  lemma KeyShape(user: Pk, taskId: Pk)
    ensures CommentsKey(user, taskId)
         == "user_" + (Decimal(user) + ['_'] + ("task_" + (Decimal(taskId) + ['_'] + "comments")))
  {
  }

  lemma DropPrefix(p: string, x: string, y: string)
    requires p + x == p + y
    ensures x == y
  {
    assert x == (p + x)[|p|..];
    assert y == (p + y)[|p|..];
  }

  /** Each (user, task) pair has its own cache key. */
  lemma CommentsKeyInjective(u1: Pk, t1: Pk, u2: Pk, t2: Pk)
    requires CommentsKey(u1, t1) == CommentsKey(u2, t2)
    ensures u1 == u2 && t1 == t2
  {
    KeyShape(u1, t1);
    KeyShape(u2, t2);
    var a1, a2, b1, b2 := Decimal(u1), Decimal(u2), Decimal(t1), Decimal(t2);
    var x1, x2 := "task_" + (b1 + ['_'] + "comments"), "task_" + (b2 + ['_'] + "comments");
    DropPrefix("user_", a1 + ['_'] + x1, a2 + ['_'] + x2);
    assert '_' !in a1 && '_' !in a2;
    SplitAtSeparator(a1, x1, a2, x2, '_');
    DecimalInjective(u1, u2);
    DropPrefix("task_", b1 + ['_'] + "comments", b2 + ['_'] + "comments");
    assert '_' !in b1 && '_' !in b2;
    SplitAtSeparator(b1, "comments", b2, "comments", '_');
    DecimalInjective(t1, t2);
  }

  /** What `list_comments(user, task_id)` returns and the cache entries it
      leaves, read at time `now`. A live, non-empty cached list is returned
      as is. Otherwise (nothing cached, expired, or an empty list, which is
      falsy) the owner-scoped query runs and its result is stored for ten
      minutes. */
  function ListOutcome(entries: map<string, Entry>, t: Tables, user: Pk, taskId: Pk, now: nat)
    : (res: (seq<TaskComment>, map<string, Entry>))
    ensures var key, hit := CommentsKey(user, taskId), Lookup(entries, CommentsKey(user, taskId), now);
            && (hit.Some? && hit.value != [] ==> res == (hit.value, entries))
            && (!(hit.Some? && hit.value != []) ==> res.0 == CR.GetTaskComments(t, taskId, user))
            && Lookup(res.1, key, now) == Some(res.0)
            && (forall k :: k != key ==> Lookup(res.1, k, now) == Lookup(entries, k, now))
  {
    var key := CommentsKey(user, taskId);
    var hit := Lookup(entries, key, now);
    if hit.Some? && hit.value != [] then (hit.value, entries)
    else
      var queried := CR.GetTaskComments(t, taskId, user);
      (queried, entries[key := Entry(queried, now + CommentsTimeout)])
  }

  /** `list_comments(user, task_id)`: `cache.get`, then on a miss the query
      and `cache.set`. The database is only read. */
  method ListComments(db: Database, cache: LocMemCache, user: Pk, taskId: Pk, now: nat)
    returns (comments: seq<TaskComment>)
    modifies cache
    ensures (comments, cache.entries) == ListOutcome(old(cache.entries), db.tables, user, taskId, now)
  {
    var key := CommentsKey(user, taskId);
    var cached := cache.Get(key, now);
    if cached.Some? && cached.value != [] {
      return cached.value;
    }
    comments := CR.GetTaskComments(db.tables, taskId, user);
    cache.Set(key, comments, now, CommentsTimeout);
    assert cache.entries == old(cache.entries)[key := Entry(comments, now + CommentsTimeout)];
  }

  /** Listing twice within the ten minutes after a miss gives the first
      answer again and leaves the cache alone, whatever the tables hold by
      then, as long as that answer was not empty. */
  lemma RepeatedListingIsCached(entries: map<string, Entry>, t: Tables, t2: Tables, user: Pk, taskId: Pk,
                                now: nat, later: nat)
    requires now <= later < now + CommentsTimeout
    requires var hit := Lookup(entries, CommentsKey(user, taskId), now); !(hit.Some? && hit.value != [])
    requires CR.GetTaskComments(t, taskId, user) != []
    ensures var first := ListOutcome(entries, t, user, taskId, now);
            ListOutcome(first.1, t2, user, taskId, later) == first
  {
    var key := CommentsKey(user, taskId);
    var first := ListOutcome(entries, t, user, taskId, now);
    StoredValueLives(entries, key, first.0, now, CommentsTimeout, later);
  }

  /** An empty listing is never served from the cache: the next listing
      queries again and sees whatever the tables hold by then. */
  lemma EmptyListingRequeried(entries: map<string, Entry>, t: Tables, t2: Tables, user: Pk, taskId: Pk,
                              now: nat, later: nat)
    requires now <= later
    requires ListOutcome(entries, t, user, taskId, now).0 == []
    ensures var first := ListOutcome(entries, t, user, taskId, now);
            ListOutcome(first.1, t2, user, taskId, later).0 == CR.GetTaskComments(t2, taskId, user)
  {
    var key := CommentsKey(user, taskId);
    var first := ListOutcome(entries, t, user, taskId, now);
    if Lookup(entries, key, now).Some? && Lookup(entries, key, now).value != [] {
      assert false;
    }
    StoredValueLives(entries, key, [], now, CommentsTimeout, later);
  }

  /** `create_comment(serializer, task_id, user)`: the comment is saved on
      the task named in the URL with the requester as author, and the
      post-save receivers write their notices; no other table changes. The
      cache is not touched. */
  method CreateComment(db: Database, taskId: Pk, user: Pk, content: string) returns (r: Result<Pk, Persist.SaveError>)
    requires db.Valid()
    modifies db
    ensures db.Valid()
    ensures taskId !in old(db.tables.tasks) || user !in old(db.tables.users) ==>
              r == Failure(Persist.ForeignKeyViolation) && db.tables == old(db.tables) && db.nextId == old(db.nextId)
    ensures taskId in old(db.tables.tasks) && user in old(db.tables.users) ==>
              && r == Success(old(db.nextId))
              && Extends(old(db.tables).(comments := old(db.tables.comments) + [NewComment(old(db.nextId), taskId, user, content)]),
                         old(db.nextId) + 1, old(db.clock), db.tables, db.nextId, db.clock,
                         Persist.CommentPostSave(db.wiring, content, true, old(db.tables.tasks[taskId]),
                                                 old(db.TaskOwner(taskId))))
  {
    r := Persist.SaveNewComment(db, taskId, user, content);
  }

  /** A comment created by anyone (the assignee, say) while the owner's
      non-empty listing of its task is cached stays out of that listing until
      the entry expires, although the query would now return it: the
      listing is stale for up to ten minutes. */
  lemma NewCommentHiddenUntilExpiry(entries: map<string, Entry>, t: Tables, t2: Tables, next: Pk,
                                    user: Pk, author: Pk, taskId: Pk, content: string, now: nat, later: nat)
    requires Inv(t, next)
    requires now <= later < now + CommentsTimeout
    requires var hit := Lookup(entries, CommentsKey(user, taskId), now); !(hit.Some? && hit.value != [])
    requires CR.GetTaskComments(t, taskId, user) != []
    requires t2.comments == t.comments + [NewComment(next, taskId, author, content)]
    requires t2.tasks == t.tasks && t2.projects == t.projects
    ensures var first := ListOutcome(entries, t, user, taskId, now);
            var c := NewComment(next, taskId, author, content);
            && ListOutcome(first.1, t2, user, taskId, later).0 == first.0
            && c !in first.0
            && CR.GetTaskComments(t2, taskId, user) == first.0 + [c]
  {
    var c := NewComment(next, taskId, author, content);
    var first := ListOutcome(entries, t, user, taskId, now);
    RepeatedListingIsCached(entries, t, t2, user, taskId, now, later);
    CR.AppendedCommentListed(t, t2, c, taskId, user);
    var some := first.0[0];
    assert some in first.0;
    assert CR.OwnerScoped(t, taskId, user, c);
    if c in first.0 {
      assert CommentRowOk(t, next, c);
    }
  }
}

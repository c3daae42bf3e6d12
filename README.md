# Task manager core, modelled in Dafny

This project models the core of a Django project-management backend:

- its persisted entities: users, projects, tasks, comments, attachments, memberships and notifications;
- the repositories that read and write them;
- the task and comment services, with the cached comment listing, the creation notice and the e-mail job;
- the object permissions of the project API;
- the user manager;
- the two sets of signal receivers that write in-app notifications when tasks, comments and attachments are saved.

The database is one `Store.Database` object. Its tables are a value (`Models.Tables`) that the operations replace. It also holds a single primary-key counter, a clock and the set of connected signal modules (`Wiring`). The methods on it are the single-row INSERT and UPDATE statements, each guarded by the foreign-key and uniqueness constraints of the schema. The invariant `Store.Inv` (referential integrity, unique emails, unique memberships, distinct notification keys, keys below the counter) holds before and after every method.

Every receiver and every save is specified by a pure function that gives the notifications it writes, in order. The imperative methods are proved against those functions. Lemmas then state what the functions mean: who is notified, once or several times, in what order, and when nobody is.

Modules, one per file:

- `Base`: options, results, Python values and truthiness, the order-keeping filter.
- `Text`: strip, base name, decimal rendering.
- `Models`: rows, defaults, `on_delete`.
- `Store`: the database object and its invariant.
- `ProjectSignals`, `NotificationSignals`: the two receiver modules.
- `Persist`: `save()` with its receivers.
- `TaskRepository`, `CommentRepository`, `NotificationRepository`: the repositories.
- `Permissions`.
- `Cache`: the local-memory cache.
- `CommentService`, `TaskService`: the services.
- `Accounts`: the user manager.

Where the code and the documentation of the system disagree, the model follows the code:

- `update_task` refuses a request that carries no `status`, even a staff reassignment (`TaskService.StatusCheckedFirst`).
- Creating an assigned task can write several assignment notices to the same user (`TaskService.FourAssignmentNotices`).
- An e-mail job that cannot be queued makes `create_task` report the generic failure, although the task and its notifications stay.

## Model

| member | source | states |
|---|---|---|
| Base.Filter | projects/repositories/task_comment_repository.py:49-52 | an element is in the result iff it is in the input and satisfies the predicate; the result is no longer than the input |
| Base.FilterAgree | projects/repositories/task_repository.py:67-70 | two predicates that agree on every element select the same subsequence |
| Base.FilterNone | projects/repositories/task_repository.py:67-70 | a predicate that no element satisfies selects nothing |
| Base.FilterAppend | projects/repositories/task_repository.py:67-70 | filtering a concatenation gives the selection from the first part followed by the selection from the second |
| Models.NewTask | projects/models.py:79-96 | a new task takes status todo, priority low and an empty description when these are not given, and every other field from the arguments |
| Models.NewProject | projects/models.py:20-36 | a new project's status defaults to planned |
| Models.NewComment | projects/models.py:118-127 | a new comment is not soft-deleted |
| Models.NewMember | projects/models.py:145-153 | a membership's role defaults to member |
| Models.NewNotification | notifications/models.py:10-17 | a new notification is unread and stamped with the creation time |
| Models.NewUser | accounts/models.py:46-49 | a user is active and not staff unless told otherwise |
| Models.NotificationLabel | notifications/models.py:19-21 | the label is "Notification to ", the recipient's email and " - ", followed by at most the first 30 characters of the message |
| Models.EmptyTablesWellFormed | projects/models.py:151-157 | the empty database satisfies every constraint |
| Models.FilterKeepsMembersUnique | projects/models.py:156-157 | removing membership rows keeps (project, user) unique |
| Models.DeleteTask | projects/models.py:118 | deleting a task removes exactly its comments and attachments, and nothing else |
| Models.DeleteTaskWellFormed | projects/models.py:174 | the cascade leaves no dangling reference |
| Models.DeleteProject | projects/models.py:74-78 | deleting a project removes that project, exactly its tasks, their comments and attachments, and its memberships; users and notifications are unchanged |
| Models.DeleteProjectWellFormed | projects/models.py:151 | the project cascade leaves no dangling reference |
| Models.DeleteUser | projects/models.py:83-96 | deleting a user removes exactly that user, the projects they own, the tasks of those projects and the tasks they created, the comments on those tasks or by them, the attachments of those tasks, the memberships of those projects or of the user, and their notifications; surviving tasks are the old ones with that assignee cleared |
| Models.DeleteUserKeepsAssignedTasks | projects/models.py:83-89 | a task assigned to the deleted user survives, unassigned, unless the user owned its project or created it |
| Models.DeleteUserTasksWellFormed | projects/models.py:91-96 | after a user is deleted, every remaining task references existing rows |
| Models.DeleteUserRowsWellFormed | projects/models.py:118-123 | after a user is deleted, every remaining comment, attachment and membership references existing rows |
| Models.DeleteUserWellFormed | projects/models.py:29-33 | deleting a user preserves every schema constraint |
| Store.Rows | notifications/models.py:10-17 | one notification row is written per notice |
| Store.RowsAppend | notifications/models.py:10-17 | the rows for two lists of notices are the rows of the first followed by those of the second |
| Store.Replaced | notifications/repositories/notifications_repository.py:37-38 | an UPDATE of one notification keeps the table's length |
| Store.ExtendsTrans | notifications/repositories/notifications_repository.py:25-30 | writing notices `a` and then `b` is the same as writing `a + b` |
| Store.InvIsWellFormedAndFresh | projects/models.py:151-157 | the database invariant is exactly the schema constraints, plus keys below the counter and distinct notification keys |
| Store.TaskRowFacts | projects/models.py:74-78 | a stored task references an existing project whose owner exists |
| Store.ProjectRowFacts | projects/models.py:29-33 | a stored project's owner exists |
| Store.InvCarries | projects/models.py:151-157 | row constraints survive when the tables they mention are unchanged or grow |
| Store.AppendNotificationKeeps | notifications/models.py:10-14 | inserting a notification for an existing user preserves the invariant |
| Store.ReplaceNotificationKeeps | notifications/repositories/notifications_repository.py:37-38 | rewriting a notification preserves the invariant |
| Store.InsertTaskKeeps | projects/models.py:74-96 | writing a task whose references exist preserves the invariant |
| Store.InsertCommentKeeps | projects/models.py:118-123 | inserting a comment on an existing task by an existing author preserves the invariant |
| Store.InsertAttachmentKeeps | projects/models.py:174 | inserting an attachment on an existing task preserves the invariant |
| Store.InsertMemberKeeps | projects/models.py:151-157 | inserting a new (project, user) membership preserves the invariant |
| Store.InsertUserKeeps | accounts/models.py:46 | inserting a user with an unused email preserves the invariant |
| Store.InsertProjectKeeps | projects/models.py:29-33 | inserting a project with an existing owner preserves the invariant |
| Store.Database.constructor | projects/models.py:151-157 | an empty database satisfies the invariant |
| Store.Database.TaskOwner | projects/permissions.py:26-28 | the owner of a stored task's project exists |
| Store.Database.Tick | notifications/models.py:17 | the clock moves forward and nothing else changes |
| Store.Database.CreateNotification | notifications/repositories/notifications_repository.py:25-30 | a null recipient writes nothing and fails; otherwise exactly one unread row is appended under the next key |
| Store.Database.UpdateNotification | notifications/repositories/notifications_repository.py:37-38 | the row with that key is rewritten; no other row or table changes |
| Store.Database.InsertTask | projects/repositories/task_repository.py:35 | succeeds iff every reference exists; on success exactly the new task is added under the next key |
| Store.Database.PutTask | projects/models.py:74-96 | succeeds iff every reference exists; then exactly that task's row is replaced |
| Store.Database.InsertComment | projects/repositories/task_comment_repository.py:34 | succeeds iff the task and the author exist; then exactly the new comment is appended |
| Store.Database.InsertAttachment | projects/models.py:174-176 | succeeds iff the task exists; then exactly the new attachment is appended |
| Store.Database.InsertMember | projects/models.py:151-157 | succeeds iff the project and user exist and the pair is new |
| Store.Database.InsertUser | accounts/models.py:46 | succeeds iff the email is unused |
| Store.Database.InsertProject | projects/models.py:29-33 | succeeds iff the owner exists |
| ProjectSignals.Recipients | projects/signals.py:20-26 | recipients are exactly the non-null candidates, with no repeats |
| ProjectSignals.FirstIndex | projects/signals.py:20-26 | the position of a candidate's first occurrence |
| ProjectSignals.FirstIndexExtend | projects/signals.py:20-26 | appending a candidate does not move an earlier first occurrence |
| ProjectSignals.RecipientsInFirstOccurrenceOrder | projects/signals.py:20-26 | recipients are notified in the order of their first occurrence among the candidates |
| ProjectSignals.RecipientsSnoc | projects/signals.py:22-26 | one more candidate adds it at the end iff it is non-null and new |
| ProjectSignals.RecipientsExample | projects/signals.py:22-26 | repeated and null candidates are skipped |
| ProjectSignals.RecipientsSingle | projects/signals.py:22-26 | a single candidate is notified iff non-null |
| ProjectSignals.RecipientsPair | projects/signals.py:22-26 | for owner and assignee: the owner, then the assignee if set and different |
| ProjectSignals.NotifyOne | projects/signals.py:20-26 | a single non-null candidate receives exactly one notification |
| ProjectSignals.Notify | projects/signals.py:20-26 | the loop writes exactly one notification per distinct non-null candidate, in order |
| ProjectSignals.Snippet | projects/signals.py:83-84 | the quoted comment is the stripped text when at most 50 characters; otherwise its first 47 characters followed by "..." |
| ProjectSignals.StashOldValues | projects/signals.py:29-42 | the snapshot holds the stored status and assignee iff the instance has a key whose row exists; otherwise it is empty |
| ProjectSignals.CreatedTaskNotices | projects/signals.py:50-54 | a new task notifies only its assignee, once; an unassigned one notifies nobody |
| ProjectSignals.UnchangedSaveIsSilent | projects/signals.py:57-73 | a save that changes neither assignee nor status notifies nobody |
| ProjectSignals.ReassignmentNotices | projects/signals.py:57-67 | reassignment notifies the new assignee, then the previous one if that user still exists |
| ProjectSignals.StatusChangeNotices | projects/signals.py:70-73 | a status change notifies the owner and then the assignee, once each |
| ProjectSignals.UpdateNoticesAdditive | projects/signals.py:56-73 | an update's notices are those of the assignment change followed by those of the status change |
| ProjectSignals.SnapshotDetectsChange | projects/signals.py:29-73 | an update is silent iff the stored assignee and status equal those being saved |
| ProjectSignals.CommentNoticesRecipients | projects/signals.py:76-86 | a new comment notifies the project owner, then the assignee if different |
| ProjectSignals.AttachmentNoticesRecipients | projects/signals.py:89-95 | a new attachment notifies the owner, then the assignee if different, naming the file's base name |
| ProjectSignals.TestTaskSignal | projects/signals.py:11-17 | on creation the assignee gets the test notice; a null assignee writes nothing and fails |
| ProjectSignals.NotifyAssignment | projects/signals.py:57-67 | writes exactly the notices of the assignment-change rule |
| ProjectSignals.NotifyStatus | projects/signals.py:70-73 | writes exactly the notices of the status-change rule |
| ProjectSignals.TaskNotifications | projects/signals.py:45-73 | writes exactly `TaskNotices` for the snapshot, the saved task and the project owner |
| ProjectSignals.CommentNotifications | projects/signals.py:76-86 | writes exactly `CommentNotices` for the comment's task and owner |
| ProjectSignals.AttachmentNotifications | projects/signals.py:89-95 | writes exactly `AttachmentNotices` for the attachment's task and owner |
| NotificationSignals.TaskAssignmentRecipients | notifications/signals.py:12-34 | an unassigned task is silent; an assigned one notifies exactly its assignee, once, with the assignment message on creation |
| NotificationSignals.UpdateNoticeIgnoresHistory | notifications/signals.py:26-34 | on update the notice depends only on the title, status and assignee saved, not on what changed |
| NotificationSignals.CommentRecipients | notifications/signals.py:40-49 | a new comment notifies only the task's assignee, quoting a prefix of at most 50 characters |
| NotificationSignals.NotifyTaskAssignment | notifications/signals.py:12-34 | writes exactly `TaskAssignmentNotices` |
| NotificationSignals.NotifyTaskComment | notifications/signals.py:40-49 | writes exactly `CommentNotices` |
| Persist.TaskPostSaveReceivers | projects/signals.py:11-73 | runs the receivers in order; stops when the test receiver fails; writes exactly `TaskPostSave` |
| Persist.SaveNewTask | projects/repositories/task_repository.py:23-35 | a missing reference writes nothing; otherwise the row is inserted, followed by exactly the receivers' notices, and a receiver failure is reported with the row kept |
| Persist.SaveTask | projects/repositories/task_repository.py:51 | the pre-save snapshot, the row write and the receivers' notices, as `SavedTask` states |
| Persist.CommentPostSaveReceivers | notifications/signals.py:40-49 | writes the project receiver's notices, then the notification module's |
| Persist.SaveNewComment | projects/repositories/task_comment_repository.py:22-34 | a missing task or author writes nothing; otherwise the comment is appended, followed by exactly the receivers' notices |
| Persist.AttachmentPostSaveReceivers | projects/signals.py:89-95 | writes exactly the attachment notices |
| Persist.SaveNewAttachment | projects/signals.py:89-95 | a missing task writes nothing; otherwise the attachment is appended, followed by exactly its notices |
| Persist.CreateAssignedTaskNotices | projects/signals.py:11-54 | with both modules connected, a new assigned task gives its assignee three notices |
| Persist.CreateUnassignedTaskFails | projects/signals.py:11-17 | a new unassigned task fails in the test receiver and writes no notice |
| Persist.UnchangedSaveNotices | notifications/signals.py:26-34 | a save that changes nothing still notifies the assignee "status changed to" |
| Persist.CommentNoticesBothModules | notifications/signals.py:40-49 | a comment notifies the owner once and a different assignee twice |
| TaskRepository.Apply | projects/repositories/task_repository.py:49-50 | after `setattr` the field holds the value and every other field is unchanged |
| TaskRepository.ApplyAll | projects/repositories/task_repository.py:49-50 | the last write to each named field wins; unnamed fields are unchanged; the key is kept |
| TaskRepository.ApplyLastWinners | projects/repositories/task_repository.py:49-50 | a keyword that is the last of its name still holds after one more `setattr` |
| TaskRepository.ApplyLastFrame | projects/repositories/task_repository.py:49-50 | a field named by no keyword keeps its value after one more `setattr` |
| TaskRepository.EveryNamedFieldSet | projects/repositories/task_repository.py:49-50 | with distinct keywords, every field named ends up with its value |
| TaskRepository.ApplyAllHolding | projects/repositories/task_repository.py:49-50 | writing values the task already holds leaves it unchanged |
| TaskRepository.UpdateIdempotent | projects/repositories/task_repository.py:37-52 | repeating an update changes nothing more |
| TaskRepository.UpdateTask | projects/repositories/task_repository.py:37-52 | the loop computes `ApplyAll`, then the task is saved as `SavedTask` states |
| CommentRepository.GetTaskComments | projects/repositories/task_comment_repository.py:36-52 | returns exactly the task's comments, and only when the requester owns the task's project |
| CommentRepository.NonOwnerSeesNothing | projects/repositories/task_comment_repository.py:49-52 | anyone but the project owner gets an empty list |
| CommentRepository.OwnerSeesAllComments | projects/repositories/task_repository.py:67-70 | the owner gets every comment of the task, soft-deleted ones included (in the insertion order the model fixes) |
| CommentRepository.AppendedCommentListed | projects/repositories/task_comment_repository.py:49-52 | a new comment on the task appears in the owner's listing of that task (last, in the order the model fixes) and in no other listing |
| Cache.Lookup | projects/services/comment_service.py:38 | a value is found iff it was stored and has not expired |
| Cache.StoredValueLives | projects/services/comment_service.py:42 | a value set with a timeout is read back unchanged until the timeout elapses |
| Cache.OtherKeysUnaffected | projects/services/comment_service.py:42 | setting or deleting one key does not change what another key reads |
| Cache.LocMemCache.constructor | projects/services/comment_service.py:38 | a new cache is empty |
| Cache.LocMemCache.Get | projects/services/comment_service.py:38 | returns what `Lookup` finds; an entry that is not live is removed |
| Cache.LocMemCache.Set | projects/services/comment_service.py:42 | stores the value with its expiry time |
| CommentService.KeyShape | projects/services/comment_service.py:37 | the key splits at the separators that follow the two numbers |
| CommentService.DropPrefix | projects/services/comment_service.py:37 | equal texts with a common prefix have equal remainders |
| CommentService.CommentsKeyInjective | projects/services/comment_service.py:37 | distinct (user, task) pairs get distinct cache keys |
| CommentService.ListOutcome | projects/services/comment_service.py:23-44 | a live non-empty cached list is returned as is; otherwise the query result is returned and cached; other keys are unaffected |
| CommentService.ListComments | projects/services/comment_service.py:23-44 | the returned list and the new cache are `ListOutcome` |
| CommentService.RepeatedListingIsCached | projects/services/comment_service.py:38-42 | within ten minutes of a miss, a non-empty result is served again whatever the tables hold |
| CommentService.EmptyListingRequeried | projects/services/comment_service.py:40-42 | an empty result is never served from the cache |
| CommentService.CreateComment | projects/services/comment_service.py:46-59 | a missing task or author writes nothing and fails; otherwise the comment is stored on the given task with the requester as author, the post-save receivers of both modules write exactly their notices, and no other table changes |
| CommentService.NewCommentHiddenUntilExpiry | projects/services/comment_service.py:38-59 | a new comment by any author is missing from the owner's cached listing of its task until the entry expires, though the query returns it |
| NotificationRepository.Insert | notifications/repositories/notifications_repository.py:16 | inserting a row into a newest-first list keeps it newest first and adds exactly that row |
| NotificationRepository.NewerHead | notifications/repositories/notifications_repository.py:16 | a row newer than the inserted one stays ahead of it |
| NotificationRepository.SortNewestFirst | notifications/models.py:26 | the result is newest first and a permutation of the input |
| NotificationRepository.GetUserNotifications | notifications/repositories/notifications_repository.py:11-16 | exactly the user's notifications, each as often as stored, newest first |
| NotificationRepository.GetNotificationById | notifications/repositories/notifications_repository.py:18-23 | a found row is stored and has that key; the lookup fails iff no row has the key |
| NotificationRepository.GetByIdFindsTheRow | notifications/repositories/notifications_repository.py:18-23 | with unique keys, looking up a stored row's key returns that row |
| NotificationRepository.ReadCopy | notifications/repositories/notifications_repository.py:37 | the row is read and every other field is unchanged |
| NotificationRepository.MarkReadChangesOneRow | notifications/repositories/notifications_repository.py:32-39 | marking a stored notification read changes that row only |
| NotificationRepository.MarkReadIdempotent | notifications/repositories/notifications_repository.py:32-39 | marking read twice is the same as once |
| NotificationRepository.MarkAsRead | notifications/repositories/notifications_repository.py:32-39 | returns the read copy; only that row of the table changes |
| Permissions.IsOwnerOrReadOnly | projects/permissions.py:4-15 | reads are allowed; a write is allowed iff the requester owns the object |
| Permissions.IsAssignedOrOwner | projects/permissions.py:18-28 | a read is allowed iff the requester owns the project or is the assignee; a write iff the requester owns the project |
| Permissions.WriteImpliesRead | projects/permissions.py:18-28 | write access implies read access; an assignee who does not own the project can only read |
| Permissions.TaskWritesFollowProjectOwner | projects/permissions.py:24-28 | on writes, the task rule is the owner rule applied to the project |
| Permissions.ResolveProject | projects/permissions.py:32 | the object's own project, else its task's; a missing attribute or task row is an error |
| Permissions.IsProjectMember | projects/permissions.py:30-33 | allowed iff a membership joins the resolved project and the user; errors propagate |
| Permissions.OwnerWithoutMembershipDenied | projects/permissions.py:30-33 | a project owner with no membership row is refused |
| TaskService.EmailQueue.constructor | projects/services/task_service.py:65 | the queue starts empty |
| TaskService.EmailQueue.Delay | projects/services/task_service.py:65 | succeeds iff the broker is reachable; then exactly that job is queued |
| TaskService.CreateKwargsAsWritten | projects/services/task_service.py:51-57 | as written, the call fails iff the payload has an `assigned_to` key; otherwise the requester is assignee and creator |
| TaskService.CreateKwargs | projects/services/task_service.py:51-57 | the supplied assignee when truthy, else the requester; the requester as creator; other fields from the payload |
| TaskService.AsWrittenRejectsSuppliedAssignee | projects/services/task_service.py:51-57 | as-written and intended arguments agree iff no assignee key is sent; a supplied assignee fails as written |
| TaskService.CreateTask | projects/services/task_service.py:28-74 | with the intended arguments (`CreateKwargs`, see Findings): a bad reference writes nothing and fails; otherwise the task, the receivers' notices, one service notice and the e-mail job; a queue failure is the generic error |
| TaskService.CreateTaskAsWritten | projects/services/task_service.py:51-57 | as written: a payload with an `assigned_to` key (even null) gets the generic error and nothing is written; any other payload behaves as `CreateTask` |
| TaskService.NotifyAssignee | projects/services/task_service.py:60-65 | exactly one notice to the assignee is written, then the e-mail job is queued iff the broker is reachable |
| TaskService.FourAssignmentNotices | projects/services/task_service.py:53-64 | with both modules connected, a new task's assignee gets four assignment notices |
| TaskService.KnownStatusIsStatusName | projects/services/task_service.py:96-98 | the accepted status texts are exactly the stored status names |
| TaskService.UpdateGuard | projects/services/task_service.py:96-101 | the update proceeds iff the status is known and the requester is staff or does not reassign; status is checked first |
| TaskService.StatusCheckedFirst | projects/services/task_service.py:96-101 | an absent or bad status is refused, even for staff, before the reassignment check |
| TaskService.UpdateTask | projects/services/task_service.py:76-103 | a refused request writes nothing; otherwise the fields are written and saved as `SavedTask` states |
| TaskService.GetComments | projects/services/task_service.py:105-127 | same outcome as the comment service's listing: same key, timeout and query |
| Accounts.ToBool | accounts/models.py:48-49 | a boolean column accepts exactly the true and false spellings and refuses anything else |
| Accounts.Str | accounts/models.py:47 | a text column stores text as is and a non-negative integer as its decimal digits |
| Accounts.CheckNewUser | accounts/models.py:10-24 | an empty email fails first, then an unknown keyword; a successful row has the email and defaulted flags |
| Accounts.DefaultFlags | accounts/models.py:10-24 | a plain user is active and neither staff nor superuser |
| Accounts.NullFlagRefused | accounts/models.py:48-49 | an explicit null flag is refused, not defaulted |
| Accounts.CreateUser | accounts/models.py:10-24 | a failed check or a taken email writes nothing; otherwise exactly one user is inserted under the next key |
| Accounts.SuperuserFields | accounts/models.py:30-31 | both staff flags default to true; explicit values are kept |
| Accounts.CreateSuperuser | accounts/models.py:26-38 | a flag other than true fails before the email is checked; a created superuser is staff and superuser |
| Accounts.SuperuserFlagsMustBeTrue | accounts/models.py:30-36 | an omitted flag becomes true; any explicit value other than true (even 1) is refused |
| Text.Take | notifications/signals.py:45 | a prefix of at most n characters: exactly n when the text is long enough, the whole text otherwise |
| Text.StripTrimsWhitespace | projects/signals.py:83 | the stripped text is a middle slice with no whitespace at either end, and only whitespace was removed |
| Text.BaseName | projects/signals.py:93 | the part after the last slash |
| Text.BaseNameIsLastSegment | projects/signals.py:93 | the base name contains no slash and ends the path |
| Text.Decimal | projects/services/comment_service.py:37 | the decimal rendering of a number: at least one character, digits only, a single digit iff below 10 |
| Text.DecimalInjective | projects/services/comment_service.py:37 | distinct numbers render differently |
| Text.SplitAtSeparator | projects/services/comment_service.py:37 | separator-free prefixes split a text at the same place |

## Left out

- Password hashing (`set_password`) and email normalisation (`normalize_email`) in the user manager are left out. The email is stored as given.
- The `password`, `last_login`, `groups` and `user_permissions` keywords of the user manager are not modelled. Any keyword other than `full_name` and the three flags is treated as unknown and fails with a type error.
- `max_length` limits and serializer validation are not modelled. The services receive already validated data, and the content of a new comment is a parameter.
- Wall-clock time is the `clock` field and the `now` parameter. The Celery broker, the e-mail job's execution and SMTP are left out; only the queued job record is modelled.
- Logging (`custom_log`, loggers) is left out, because it writes nothing the model reads.
- The culling of the local-memory cache at its size limit and the pickling of cached values are left out. A cache entry holds the list of comments as it was when stored.
- Receiver registration is fixed: the receivers of `projects/signals.py` run before those of `notifications/signals.py`, and which modules are connected is the `Wiring` constant. Transactions and concurrent requests are not modelled.
- Anonymous requesters are not modelled: the permission classes take an authenticated user key.
- CommentRepository.GetTaskComments: neither `TaskComment` nor the query orders the rows, so the database may return them in any order; the model fixes table (insertion) order.
- OwnerSeesAllComments: the order it states (the table order of the task's comments) is the order the model fixes, not one the query promises; only the set of rows, with multiplicity, is what the source gives.
- AppendedCommentListed: "listed last" is the model's fixed order; the source promises only that the new comment is among the rows listed.
- NotificationRepository.SortNewestFirst: rows with equal `created_at` are put in a fixed order, while the database may return them in any order.
- ProjectSignals.TaskNotifications: the `hasattr` guards are taken to hold, since the pre-save receiver always stashes both values.
- TaskService.UpdateTask: DRF's `serializer.save()` is modelled as the repository's `setattr` loop followed by `save()`.
- String representations other than the notification's are not modelled, because nothing in the core reads them.

## Findings

| source | as written | input that shows it | evidently intended | confidence | as-written member | corrected member |
|---|---|---|---|---|---|---|
| projects/services/task_service.py:51-57 | `assigned_to` is passed explicitly and again inside `**validated_data`, so any payload carrying an `assigned_to` key (even null) raises a duplicate-keyword `TypeError`, which is reported as "Failed to create task" | a creation payload with `assigned_to: 5` | the task is created and assigned to user 5; without an assignee it goes to the requester | not executed | TaskService.CreateKwargsAsWritten | TaskService.CreateKwargs |

/** The object-level permission classes of the project API. Each decides,
    for an authenticated requesting user, an HTTP method and an object,
    whether the request may proceed. */
module Permissions {
  import opened Base
  import opened Models

  datatype HttpMethod = GET | HEAD | OPTIONS | POST | PUT | PATCH | DELETE

  /** The read-only methods (`SAFE_METHODS`). */
  predicate Safe(m: HttpMethod)
  {
    m == GET || m == HEAD || m == OPTIONS
  }

  /** `IsOwnerOrReadOnly`: anyone may read; only the object's owner may
      write. */
  function IsOwnerOrReadOnly(m: HttpMethod, objOwner: Pk, user: Pk): (allowed: bool)
    ensures Safe(m) ==> allowed
    ensures !Safe(m) ==> (allowed <==> objOwner == user)
  {
    if Safe(m) then true else objOwner == user
  }

  /** `IsAssignedOrOwner` on a task whose project is owned by `owner`: the
      owner and the assignee may read; only the owner may write. */
  function IsAssignedOrOwner(m: HttpMethod, task: Task, owner: Pk, user: Pk): (allowed: bool)
    ensures owner == user ==> allowed
    ensures Safe(m) ==> (allowed <==> owner == user || task.assignedTo == Some(user))
    ensures !Safe(m) ==> (allowed <==> owner == user)
  {
    if Safe(m) then owner == user || task.assignedTo == Some(user)
    else owner == user
  }

  /** Whoever may write a task may also read it, but an assignee who does
      not own the project may only read. */
  lemma WriteImpliesRead(task: Task, owner: Pk, user: Pk, read: HttpMethod, write: HttpMethod)
    requires Safe(read) && !Safe(write)
    ensures IsAssignedOrOwner(write, task, owner, user) ==> IsAssignedOrOwner(read, task, owner, user)
    ensures task.assignedTo == Some(user) && owner != user ==>
              IsAssignedOrOwner(read, task, owner, user) && !IsAssignedOrOwner(write, task, owner, user)
  {
  }

  /** On writes the task rule is the owner rule applied to the task's
      project: the assignee gains nothing. */
  lemma TaskWritesFollowProjectOwner(m: HttpMethod, task: Task, owner: Pk, user: Pk)
    requires !Safe(m)
    ensures IsAssignedOrOwner(m, task, owner, user) == IsOwnerOrReadOnly(m, owner, user)
  {
  }

  /** The object `IsProjectMember` is asked about: one with a `project`
      attribute (a task, a membership), one that only has a `task` (a
      comment, an attachment), or one with neither (a project itself). */
  datatype Target = HasProject(project: Pk) | HasTask(task: Pk) | HasNeither

  /** `None.project` raises; a task reference that names no row fails to
      load. */
  datatype PermissionError = AttributeError | RelatedObjectDoesNotExist

  /** The project `IsProjectMember` resolves for the object: its own
      `project`, else its task's. */
  function ResolveProject(t: Tables, target: Target): (r: Result<Pk, PermissionError>)
    ensures target.HasProject? ==> r == Success(target.project)
    ensures target.HasTask? && target.task in t.tasks ==> r == Success(t.tasks[target.task].project)
    ensures target.HasTask? && target.task !in t.tasks ==> r == Failure(RelatedObjectDoesNotExist)
    ensures target.HasNeither? ==> r == Failure(AttributeError)
  {
    match target
    case HasProject(p) => Success(p)
    case HasTask(k) => if k in t.tasks then Success(t.tasks[k].project) else Failure(RelatedObjectDoesNotExist)
    case HasNeither => Failure(AttributeError)
  }

  /** `IsProjectMember`: allowed exactly when a membership row joins the
      resolved project and the user. Ownership plays no part. */
  function IsProjectMember(t: Tables, target: Target, user: Pk): (r: Result<bool, PermissionError>)
    ensures ResolveProject(t, target).Failure? <==> r.Failure?
    ensures r.Success? ==> (r.value <==> exists m :: m in t.members && m.project == ResolveProject(t, target).value && m.user == user)
  {
    match ResolveProject(t, target)
    case Failure(e) => Failure(e)
    case Success(p) => Success(exists m :: m in t.members && m.project == p && m.user == user)
  }

  /** The owner of a project who has no membership row in it is refused,
      whether the object is the task itself or a comment on it. */
  lemma OwnerWithoutMembershipDenied(t: Tables, k: Pk)
    requires k in t.tasks && t.tasks[k].project in t.projects
    requires var p := t.tasks[k].project;
             !exists m :: m in t.members && m.project == p && m.user == t.projects[p].owner
    ensures var owner := t.projects[t.tasks[k].project].owner;
            && IsProjectMember(t, HasProject(t.tasks[k].project), owner) == Success(false)
            && IsProjectMember(t, HasTask(k), owner) == Success(false)
  {
  }
}

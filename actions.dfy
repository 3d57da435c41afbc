/** The server actions of app/actions/{auth,projects,tasks,notifications}.ts as
    methods of one `Store`: the four tables and the `user_id` session cookie.

    Every action that talks to the database wraps its queries in one
    `try ... catch`; the `storageFails` parameter says whether that block throws.
    Nothing is written when it does. Fresh ids (the `cuid()` defaults) and the
    clock (`now()`, `@updatedAt`) are parameters as well. */
module Actions {
  import opened Common
  import opened Model
  import opened Schema
  import opened Tables
  import opened Ordering
  import opened Triggers

  const ProjectNotFound := "Project not found or you do not have permission"
  const TaskNotFound := "Task not found"

  /** What `getProject` returns: the project with its tasks included. */
  datatype ProjectView = ProjectView(project: Project, tasks: seq<Task>)

  /** The due date stored for a form's `dueDate`: `dueDate ? new Date(dueDate) : null`. */
  function StoredDueDate(due: Option<string>, parseDate: string -> Option<int>): (d: Option<int>)
    ensures d.Some? ==> due.Some? && due.value != "" && parseDate(due.value) == d
    ensures d.None? <==> due.None? || due.value == "" || DueDateRejected(due, parseDate)
  {
    if due.Some? && due.value != "" then parseDate(due.value) else None
  }

  /** A non-empty due date that `new Date` cannot read: Prisma refuses the write. */
  predicate DueDateRejected(due: Option<string>, parseDate: string -> Option<int>)
    ensures DueDateRejected(due, parseDate) ==> due.Some? && due.value != "" && parseDate(due.value).None?
  {
    due.Some? && due.value != "" && parseDate(due.value).None?
  }

  /** The row `createNotification` inserts. */
  function FromDraft(d: Draft, id: NotificationId, now: int): Notification {
    Notification(id, d.userId, d.title, d.message, d.kind, d.relatedId, d.relatedType, false, now)
  }

  class Store {
    var users: map<UserId, User>
    var projects: map<ProjectId, Project>
    var tasks: map<TaskId, Task>
    var notifications: map<NotificationId, Notification>
    /** The `user_id` cookie. */
    var session: Option<UserId>

    /** Rows are stored under their ids, the foreign keys hold, and e-mails are unique. */
    ghost predicate Valid()
      reads this
    {
      Consistent(users, projects, tasks, notifications)
    }

    constructor ()
      ensures Valid()
      ensures users == map[] && projects == map[] && tasks == map[] && notifications == map[]
      ensures session == None
    {
      users, projects, tasks, notifications := map[], map[], map[], map[];
      session := None;
    }

    /** The id of the signed-in user, as the actions see it through `getCurrentUser()`. */
    function CurrentUserId(): (r: Option<UserId>)
      reads this
      ensures r.Some? <==> GetCurrentUser(false).Some?
      ensures r.Some? ==> r.value == GetCurrentUser(false).value.id && r == session && r.value in users
    {
      if session.Some? && session.value != "" && session.value in users then session else None
    }

    // ---------------------------------------------------------------- auth.ts

    /** `getCurrentUser`: no cookie, an empty cookie, an unknown id or a failed
        lookup all give `null`. */
    function GetCurrentUser(lookupFails: bool): (u: Option<PublicUser>)
      reads this
      ensures u.Some? <==> !lookupFails && session.Some? && session.value != "" && session.value in users
      ensures u.Some? ==> && u.value.id == session.value
                          && u.value.name == users[session.value].name
                          && u.value.email == users[session.value].email
    {
      if session.None? || session.value == "" then None
      else if lookupFails || session.value !in users then None
      else
        var row := users[session.value];
        Some(PublicUser(session.value, row.name, row.email))
    }

    method Signup(form: SignupForm, storageFails: bool, newId: UserId) returns (r: ActionResult)
      requires Valid()
      requires newId != "" && newId !in users
      modifies this`users, this`session
      ensures Valid()
      ensures ValidateSignup(form).Rejected? ==> r == Failure(ValidateSignup(form).errors) && users == old(users) && session == old(session)
      ensures ValidateSignup(form).Parsed? && storageFails ==>
                r == FormError("Failed to create account. Please try again.") && users == old(users) && session == old(session)
      ensures ValidateSignup(form).Parsed? && !storageFails
              && FindUserByEmail(old(users), ValidateSignup(form).value.email).Some? ==>
                r == Failure(map["email" := ["User with this email already exists"]]) && users == old(users) && session == old(session)
      ensures r.Success? <==> ValidateSignup(form).Parsed? && !storageFails
                              && FindUserByEmail(old(users), ValidateSignup(form).value.email).None?
      ensures r.Success? ==>
                var input := ValidateSignup(form).value;
                && r == Success(Some(newId))
                && users == old(users)[newId := User(newId, input.name, input.email, Hash(input.password))]
                && session == Some(newId)
      ensures r.Success? ==> CurrentUserId() == Some(newId)
      ensures r.Success? ==>
                Authenticate(users, ValidateSignup(form).value.email, ValidateSignup(form).value.password) == Some(newId)
    {
      var parsed := ValidateSignup(form);
      if parsed.Rejected? {
        return Failure(parsed.errors);
      }
      var input := parsed.value;
      if storageFails {
        return FormError("Failed to create account. Please try again.");
      }
      if FindUserByEmail(users, input.email).Some? {
        return Failure(map["email" := ["User with this email already exists"]]);
      }
      SignupThenLogin(users, newId, input.name, input.email, input.password);
      AddUserConsistent(users, projects, tasks, notifications, User(newId, input.name, input.email, Hash(input.password)));
      users := users[newId := User(newId, input.name, input.email, Hash(input.password))];
      session := Some(newId);
      return Success(Some(newId));
    }

    /** `login`: an unknown e-mail and a wrong password give the same answer. */
    method Login(form: LoginForm, storageFails: bool) returns (r: ActionResult)
      requires Valid()
      modifies this`session
      ensures Valid()
      ensures ValidateLogin(form).Rejected? ==> r == Failure(ValidateLogin(form).errors) && session == old(session)
      ensures ValidateLogin(form).Parsed? && storageFails ==>
                r == FormError("Failed to login. Please try again.") && session == old(session)
      ensures ValidateLogin(form).Parsed? && !storageFails ==>
                var input := ValidateLogin(form).value;
                match Authenticate(users, input.email, input.password)
                case None => r == FormError("Invalid email or password") && session == old(session)
                case Some(u) => r == Success(Some(u)) && session == Some(u) && users[u].email == input.email
      ensures ValidateLogin(form).Parsed? && !storageFails
              && FindUserByEmail(users, ValidateLogin(form).value.email).None? ==>
                r == FormError("Invalid email or password")
      ensures r.Success? ==> CurrentUserId() == r.id
    {
      var parsed := ValidateLogin(form);
      if parsed.Rejected? {
        return Failure(parsed.errors);
      }
      var input := parsed.value;
      if storageFails {
        return FormError("Failed to login. Please try again.");
      }
      var found := Authenticate(users, input.email, input.password);
      if found.None? {
        return FormError("Invalid email or password");
      }
      session := found;
      return Success(found);
    }

    /** `logout` deletes the cookie; the redirect to `/` is not modelled. */
    method Logout()
      modifies this`session
      ensures Valid() == old(Valid())
      ensures session == None
      ensures CurrentUserId() == None
      ensures GetCurrentUser(false).None? && GetCurrentUser(true).None?
    {
      session := None;
    }

    // ------------------------------------------------------------ projects.ts

    method CreateProject(form: ProjectForm, storageFails: bool, newId: ProjectId, now: int) returns (r: ActionResult)
      requires Valid()
      requires newId !in projects
      modifies this`projects
      ensures Valid()
      ensures old(CurrentUserId()).None? ==>
                r == FormError("You must be logged in to create a project") && projects == old(projects)
      ensures old(CurrentUserId()).Some? && ValidateProject(form).Rejected? ==>
                r == Failure(ValidateProject(form).errors) && projects == old(projects)
      ensures old(CurrentUserId()).Some? && ValidateProject(form).Parsed? && storageFails ==>
                r == FormError("Failed to create project. Please try again.") && projects == old(projects)
      ensures r.Success? <==> old(CurrentUserId()).Some? && ValidateProject(form).Parsed? && !storageFails
      ensures r.Success? ==>
                var input := ValidateProject(form).value;
                && r == Success(Some(newId))
                && projects == old(projects)[newId := Project(newId, input.name, input.description, ProjectActive,
                                                              old(CurrentUserId()).value, now, now)]
    {
      var uid := CurrentUserId();
      if uid.None? {
        return FormError("You must be logged in to create a project");
      }
      var parsed := ValidateProject(form);
      if parsed.Rejected? {
        return Failure(parsed.errors);
      }
      if storageFails {
        return FormError("Failed to create project. Please try again.");
      }
      var input := parsed.value;
      PutProjectConsistent(users, projects, tasks, notifications,
                           Project(newId, input.name, input.description, ProjectActive, uid.value, now, now));
      projects := projects[newId := Project(newId, input.name, input.description, ProjectActive, uid.value, now, now)];
      return Success(Some(newId));
    }

    /** `getProjects`: the caller's projects, most recently updated first. */
    ghost function GetProjects(storageFails: bool): (r: seq<Project>)
      reads this
      ensures CurrentUserId().None? || storageFails ==> r == []
      ensures CurrentUserId().Some? && !storageFails ==>
                ListingOf(r, OwnedProjects(projects, CurrentUserId().value), ProjectUpdatedAt)
      ensures forall p | p in r :: p in projects.Values && p.userId == CurrentUserId().value
    {
      if CurrentUserId().None? || storageFails then []
      else Listing(OwnedProjects(projects, CurrentUserId().value), ProjectUpdatedAt)
    }

    /** `getProject`: the project when the caller owns it, with its tasks most
        recently updated first. */
    ghost function GetProject(id: ProjectId, storageFails: bool): (r: Option<ProjectView>)
      reads this
      ensures r.Some? <==> CurrentUserId().Some? && !storageFails && Owns(projects, id, CurrentUserId().value)
      ensures r.Some? ==> && r.value.project == projects[id]
                          && ListingOf(r.value.tasks, ProjectTasks(tasks, id), TaskUpdatedAt)
    {
      if CurrentUserId().None? || storageFails || !Owns(projects, id, CurrentUserId().value) then None
      else Some(ProjectView(projects[id], Listing(ProjectTasks(tasks, id), TaskUpdatedAt)))
    }

    method UpdateProject(id: ProjectId, form: ProjectForm, storageFails: bool, now: int) returns (r: ActionResult)
      requires Valid()
      modifies this`projects
      ensures Valid()
      ensures old(CurrentUserId()).None? ==>
                r == FormError("You must be logged in to update a project") && projects == old(projects)
      ensures old(CurrentUserId()).Some? && ValidateProject(form).Rejected? ==>
                r == Failure(ValidateProject(form).errors) && projects == old(projects)
      ensures old(CurrentUserId()).Some? && ValidateProject(form).Parsed? && storageFails ==>
                r == FormError("Failed to update project. Please try again.") && projects == old(projects)
      ensures old(CurrentUserId()).Some? && ValidateProject(form).Parsed? && !storageFails
              && !Owns(old(projects), id, old(CurrentUserId()).value) ==>
                r == FormError(ProjectNotFound) && projects == old(projects)
      ensures r.Success? <==> old(CurrentUserId()).Some? && ValidateProject(form).Parsed? && !storageFails
                              && Owns(old(projects), id, old(CurrentUserId()).value)
      ensures r.Success? ==>
                var input := ValidateProject(form).value;
                && r == Success(None)
                && projects == old(projects)[id := old(projects)[id].(name := input.name,
                                                                       description := input.description,
                                                                       updatedAt := now)]
    {
      var uid := CurrentUserId();
      if uid.None? {
        return FormError("You must be logged in to update a project");
      }
      var parsed := ValidateProject(form);
      if parsed.Rejected? {
        return Failure(parsed.errors);
      }
      if storageFails {
        return FormError("Failed to update project. Please try again.");
      }
      if !Owns(projects, id, uid.value) {
        return FormError(ProjectNotFound);
      }
      var input := parsed.value;
      PutProjectConsistent(users, projects, tasks, notifications,
                           projects[id].(name := input.name, description := input.description, updatedAt := now));
      projects := projects[id := projects[id].(name := input.name, description := input.description, updatedAt := now)];
      return Success(None);
    }

    /** `deleteProject`: the project goes together with all of its tasks. */
    method DeleteProject(id: ProjectId, storageFails: bool) returns (r: ActionResult)
      requires Valid()
      modifies this`projects, this`tasks
      ensures Valid()
      ensures old(CurrentUserId()).None? ==>
                r == FormError("You must be logged in to delete a project") && unchanged(this)
      ensures old(CurrentUserId()).Some? && storageFails ==>
                r == FormError("Failed to delete project. Please try again.") && unchanged(this)
      ensures old(CurrentUserId()).Some? && !storageFails && !Owns(old(projects), id, old(CurrentUserId()).value) ==>
                r == FormError(ProjectNotFound) && unchanged(this)
      ensures r.Success? <==> old(CurrentUserId()).Some? && !storageFails && Owns(old(projects), id, old(CurrentUserId()).value)
      ensures r.Success? ==> && r == Success(None)
                             && projects == old(projects) - {id}
                             && tasks == CascadeDelete(old(tasks), id)
    {
      var uid := CurrentUserId();
      if uid.None? {
        return FormError("You must be logged in to delete a project");
      }
      if storageFails {
        return FormError("Failed to delete project. Please try again.");
      }
      if !Owns(projects, id, uid.value) {
        return FormError(ProjectNotFound);
      }
      DropProjectConsistent(users, projects, tasks, notifications, id);
      tasks := CascadeDelete(tasks, id);
      projects := projects - {id};
      return Success(None);
    }

    // --------------------------------------------------------------- tasks.ts

    /** `createTask`: a task in one of the caller's projects, assigned to the caller. */
    method CreateTask(form: TaskForm, parseDate: string -> Option<int>, storageFails: bool, newId: TaskId, now: int)
      returns (r: ActionResult)
      requires Valid()
      requires newId !in tasks
      modifies this`tasks
      ensures Valid()
      ensures old(CurrentUserId()).None? ==>
                r == FormError("You must be logged in to create a task") && tasks == old(tasks)
      ensures old(CurrentUserId()).Some? && ValidateTask(form).Rejected? ==>
                r == Failure(ValidateTask(form).errors) && tasks == old(tasks)
      ensures old(CurrentUserId()).Some? && ValidateTask(form).Parsed? && storageFails ==>
                r == FormError("Failed to create task. Please try again.") && tasks == old(tasks)
      ensures old(CurrentUserId()).Some? && ValidateTask(form).Parsed? && !storageFails
              && !Owns(projects, ValidateTask(form).value.projectId, old(CurrentUserId()).value) ==>
                r == FormError(ProjectNotFound) && tasks == old(tasks)
      ensures old(CurrentUserId()).Some? && ValidateTask(form).Parsed? && !storageFails
              && Owns(projects, ValidateTask(form).value.projectId, old(CurrentUserId()).value)
              && DueDateRejected(ValidateTask(form).value.dueDate, parseDate) ==>
                r == FormError("Failed to create task. Please try again.") && tasks == old(tasks)
      ensures r.Success? <==> old(CurrentUserId()).Some? && ValidateTask(form).Parsed? && !storageFails
                              && Owns(projects, ValidateTask(form).value.projectId, old(CurrentUserId()).value)
                              && !DueDateRejected(ValidateTask(form).value.dueDate, parseDate)
      ensures r.Success? ==>
                var input := ValidateTask(form).value;
                && r == Success(Some(newId))
                && tasks == old(tasks)[newId := Task(newId, input.title, input.description, input.status,
                                                     input.priority, StoredDueDate(input.dueDate, parseDate),
                                                     input.projectId, old(CurrentUserId()), now, now)]
    {
      var uid := CurrentUserId();
      if uid.None? {
        return FormError("You must be logged in to create a task");
      }
      var parsed := ValidateTask(form);
      if parsed.Rejected? {
        return Failure(parsed.errors);
      }
      var input := parsed.value;
      if storageFails {
        return FormError("Failed to create task. Please try again.");
      }
      if !Owns(projects, input.projectId, uid.value) {
        return FormError(ProjectNotFound);
      }
      if DueDateRejected(input.dueDate, parseDate) {
        return FormError("Failed to create task. Please try again.");
      }
      PutTaskConsistent(users, projects, tasks, notifications,
                        Task(newId, input.title, input.description, input.status, input.priority,
                             StoredDueDate(input.dueDate, parseDate), input.projectId, uid, now, now));
      tasks := tasks[newId := Task(newId, input.title, input.description, input.status, input.priority,
                                   StoredDueDate(input.dueDate, parseDate), input.projectId, uid, now, now)];
      return Success(Some(newId));
    }

    /** `updateTaskStatus`: the new status is stored as given, without validation. */
    method UpdateTaskStatus(id: TaskId, status: string, storageFails: bool, now: int) returns (r: ActionResult)
      requires Valid()
      modifies this`tasks
      ensures Valid()
      ensures old(CurrentUserId()).None? ==>
                r == FormError("You must be logged in to update a task") && tasks == old(tasks)
      ensures old(CurrentUserId()).Some? && storageFails ==>
                r == FormError("Failed to update task status. Please try again.") && tasks == old(tasks)
      ensures old(CurrentUserId()).Some? && !storageFails && id !in old(tasks) ==>
                r == FormError(TaskNotFound) && tasks == old(tasks)
      ensures old(CurrentUserId()).Some? && !storageFails && id in old(tasks)
              && !TaskOwnedBy(projects, old(tasks), id, old(CurrentUserId()).value) ==>
                r == FormError("You do not have permission to update this task") && tasks == old(tasks)
      ensures r.Success? <==> old(CurrentUserId()).Some? && !storageFails
                              && TaskOwnedBy(projects, old(tasks), id, old(CurrentUserId()).value)
      ensures r.Success? ==> && r == Success(None)
                             && tasks == old(tasks)[id := old(tasks)[id].(status := status, updatedAt := now)]
    {
      var uid := CurrentUserId();
      if uid.None? {
        return FormError("You must be logged in to update a task");
      }
      if storageFails {
        return FormError("Failed to update task status. Please try again.");
      }
      if id !in tasks {
        return FormError(TaskNotFound);
      }
      if !Owns(projects, tasks[id].projectId, uid.value) {
        return FormError("You do not have permission to update this task");
      }
      PutTaskConsistent(users, projects, tasks, notifications, tasks[id].(status := status, updatedAt := now));
      tasks := tasks[id := tasks[id].(status := status, updatedAt := now)];
      return Success(None);
    }

    /** `updateTask`: the form's `projectId` must be present but is not applied;
        a task never moves to another project. */
    method UpdateTask(id: TaskId, form: TaskForm, parseDate: string -> Option<int>, storageFails: bool, now: int)
      returns (r: ActionResult)
      requires Valid()
      modifies this`tasks
      ensures Valid()
      ensures old(CurrentUserId()).None? ==>
                r == FormError("You must be logged in to update a task") && tasks == old(tasks)
      ensures old(CurrentUserId()).Some? && ValidateTask(form).Rejected? ==>
                r == Failure(ValidateTask(form).errors) && tasks == old(tasks)
      ensures old(CurrentUserId()).Some? && ValidateTask(form).Parsed? && storageFails ==>
                r == FormError("Failed to update task. Please try again.") && tasks == old(tasks)
      ensures old(CurrentUserId()).Some? && ValidateTask(form).Parsed? && !storageFails && id !in old(tasks) ==>
                r == FormError(TaskNotFound) && tasks == old(tasks)
      ensures old(CurrentUserId()).Some? && ValidateTask(form).Parsed? && !storageFails && id in old(tasks)
              && !TaskOwnedBy(projects, old(tasks), id, old(CurrentUserId()).value) ==>
                r == FormError("You do not have permission to update this task") && tasks == old(tasks)
      ensures old(CurrentUserId()).Some? && ValidateTask(form).Parsed? && !storageFails
              && TaskOwnedBy(projects, old(tasks), id, old(CurrentUserId()).value)
              && DueDateRejected(ValidateTask(form).value.dueDate, parseDate) ==>
                r == FormError("Failed to update task. Please try again.") && tasks == old(tasks)
      ensures r.Success? <==> old(CurrentUserId()).Some? && ValidateTask(form).Parsed? && !storageFails
                              && TaskOwnedBy(projects, old(tasks), id, old(CurrentUserId()).value)
                              && !DueDateRejected(ValidateTask(form).value.dueDate, parseDate)
      ensures r.Success? ==>
                var input := ValidateTask(form).value;
                && r == Success(None)
                && tasks == old(tasks)[id := old(tasks)[id].(title := input.title,
                                                             description := input.description,
                                                             status := input.status,
                                                             priority := input.priority,
                                                             dueDate := StoredDueDate(input.dueDate, parseDate),
                                                             updatedAt := now)]
      ensures id in old(tasks) ==> id in tasks && tasks[id].projectId == old(tasks)[id].projectId
    {
      var uid := CurrentUserId();
      if uid.None? {
        return FormError("You must be logged in to update a task");
      }
      var parsed := ValidateTask(form);
      if parsed.Rejected? {
        return Failure(parsed.errors);
      }
      var input := parsed.value;
      if storageFails {
        return FormError("Failed to update task. Please try again.");
      }
      if id !in tasks {
        return FormError(TaskNotFound);
      }
      if !Owns(projects, tasks[id].projectId, uid.value) {
        return FormError("You do not have permission to update this task");
      }
      if DueDateRejected(input.dueDate, parseDate) {
        return FormError("Failed to update task. Please try again.");
      }
      PutTaskConsistent(users, projects, tasks, notifications,
                        tasks[id].(title := input.title, description := input.description,
                                   status := input.status, priority := input.priority,
                                   dueDate := StoredDueDate(input.dueDate, parseDate), updatedAt := now));
      tasks := tasks[id := tasks[id].(title := input.title, description := input.description,
                                      status := input.status, priority := input.priority,
                                      dueDate := StoredDueDate(input.dueDate, parseDate), updatedAt := now)];
      return Success(None);
    }

    method DeleteTask(id: TaskId, storageFails: bool) returns (r: ActionResult)
      requires Valid()
      modifies this`tasks
      ensures Valid()
      ensures old(CurrentUserId()).None? ==>
                r == FormError("You must be logged in to delete a task") && tasks == old(tasks)
      ensures old(CurrentUserId()).Some? && storageFails ==>
                r == FormError("Failed to delete task. Please try again.") && tasks == old(tasks)
      ensures old(CurrentUserId()).Some? && !storageFails && id !in old(tasks) ==>
                r == FormError(TaskNotFound) && tasks == old(tasks)
      ensures old(CurrentUserId()).Some? && !storageFails && id in old(tasks)
              && !TaskOwnedBy(projects, old(tasks), id, old(CurrentUserId()).value) ==>
                r == FormError("You do not have permission to delete this task") && tasks == old(tasks)
      ensures r.Success? <==> old(CurrentUserId()).Some? && !storageFails
                              && TaskOwnedBy(projects, old(tasks), id, old(CurrentUserId()).value)
      ensures r.Success? ==> r == Success(None) && tasks == old(tasks) - {id}
    {
      var uid := CurrentUserId();
      if uid.None? {
        return FormError("You must be logged in to delete a task");
      }
      if storageFails {
        return FormError("Failed to delete task. Please try again.");
      }
      if id !in tasks {
        return FormError(TaskNotFound);
      }
      if !Owns(projects, tasks[id].projectId, uid.value) {
        return FormError("You do not have permission to delete this task");
      }
      DropTaskConsistent(users, projects, tasks, notifications, id);
      tasks := tasks - {id};
      return Success(None);
    }

    /** `getTasks`: the tasks of a project the caller owns, most recently updated first. */
    ghost function GetTasks(projectId: ProjectId, storageFails: bool): (r: seq<Task>)
      reads this
      ensures CurrentUserId().None? || storageFails || !Owns(projects, projectId, CurrentUserId().value) ==> r == []
      ensures CurrentUserId().Some? && !storageFails && Owns(projects, projectId, CurrentUserId().value) ==>
                ListingOf(r, ProjectTasks(tasks, projectId), TaskUpdatedAt)
      ensures forall t | t in r :: t in tasks.Values && t.projectId == projectId
    {
      if CurrentUserId().None? || storageFails || !Owns(projects, projectId, CurrentUserId().value) then []
      else Listing(ProjectTasks(tasks, projectId), TaskUpdatedAt)
    }

    /** `getTask`: the task when its project belongs to the caller, otherwise `null`. */
    function GetTask(id: TaskId, storageFails: bool): (r: Option<Task>)
      reads this
      ensures r.Some? <==> CurrentUserId().Some? && !storageFails && TaskOwnedBy(projects, tasks, id, CurrentUserId().value)
      ensures r.Some? ==> r.value == tasks[id]
    {
      var uid := CurrentUserId();
      if uid.None? || storageFails || id !in tasks then None
      else if tasks[id].projectId !in projects || projects[tasks[id].projectId].userId != uid.value then None
      else Some(tasks[id])
    }

    // ------------------------------------------------------- notifications.ts

    /** The rows `getNotifications` selects for `uid`. */
    ghost function Visible(uid: UserId, includeRead: bool): set<Notification>
      reads this
    {
      set n | n in notifications.Values && n.userId == uid && (includeRead || !n.isRead)
    }

    /** `getNotifications(limit, includeRead)`: the caller's newest `limit`
        notifications (unread ones only unless `includeRead`), newest first. */
    ghost function GetNotifications(limit: nat, includeRead: bool, storageFails: bool): (r: seq<Notification>)
      reads this
      ensures |r| <= limit
      ensures CurrentUserId().None? || storageFails ==> r == []
      ensures CurrentUserId().Some? && !storageFails ==>
                var rows := Visible(CurrentUserId().value, includeRead);
                && |r| == (if limit < |rows| then limit else |rows|)
                && Distinct(r)
                && DescendingBy(r, NotificationCreatedAt)
                && (forall x, y | x in r && y in rows && y !in r :: x.createdAt >= y.createdAt)
      ensures forall n | n in r :: && n in notifications.Values
                                   && n.userId == CurrentUserId().value
                                   && (includeRead || !n.isRead)
    {
      if CurrentUserId().None? || storageFails then []
      else
        var rows := Visible(CurrentUserId().value, includeRead);
        var listed := Listing(rows, NotificationCreatedAt);
        TakeOfListing(listed, rows, NotificationCreatedAt, limit);
        Take(listed, limit)
    }

    /** `markNotificationAsRead`: an id that is missing or belongs to another user
        makes the update throw. */
    method MarkNotificationAsRead(id: NotificationId, storageFails: bool) returns (r: ActionResult)
      requires Valid()
      modifies this`notifications
      ensures Valid()
      ensures CurrentUserId().None? ==>
                r == FormError("You must be logged in to update notifications") && notifications == old(notifications)
      ensures CurrentUserId().Some?
              && (storageFails || id !in old(notifications) || old(notifications)[id].userId != CurrentUserId().value) ==>
                r == FormError("Failed to update notification. Please try again.") && notifications == old(notifications)
      ensures r.Success? <==> CurrentUserId().Some? && !storageFails
                              && id in old(notifications) && old(notifications)[id].userId == CurrentUserId().value
      ensures r.Success? ==> && r == Success(None)
                             && notifications == old(notifications)[id := old(notifications)[id].(isRead := true)]
    {
      var uid := CurrentUserId();
      if uid.None? {
        return FormError("You must be logged in to update notifications");
      }
      if storageFails || id !in notifications || notifications[id].userId != uid.value {
        return FormError("Failed to update notification. Please try again.");
      }
      PutNotificationConsistent(users, projects, tasks, notifications, notifications[id].(isRead := true));
      notifications := notifications[id := notifications[id].(isRead := true)];
      return Success(None);
    }

    method MarkAllNotificationsAsRead(storageFails: bool) returns (r: ActionResult)
      requires Valid()
      modifies this`notifications
      ensures Valid()
      ensures CurrentUserId().None? ==>
                r == FormError("You must be logged in to update notifications") && notifications == old(notifications)
      ensures CurrentUserId().Some? && storageFails ==>
                r == FormError("Failed to update notifications. Please try again.") && notifications == old(notifications)
      ensures r.Success? <==> CurrentUserId().Some? && !storageFails
      ensures r.Success? ==> r == Success(None) && notifications == MarkAllRead(old(notifications), CurrentUserId().value)
      ensures r.Success? ==> Visible(CurrentUserId().value, false) == {}
    {
      var uid := CurrentUserId();
      if uid.None? {
        return FormError("You must be logged in to update notifications");
      }
      if storageFails {
        return FormError("Failed to update notifications. Please try again.");
      }
      MarkAllReadConsistent(users, projects, tasks, notifications, uid.value);
      MarkAllReadClears(notifications, uid.value);
      notifications := MarkAllRead(notifications, uid.value);
      return Success(None);
    }

    /** `createNotification`: a new unread row. */
    method CreateNotification(d: Draft, storageFails: bool, newId: NotificationId, now: int) returns (r: ActionResult)
      requires Valid()
      requires newId !in notifications
      modifies this`notifications
      ensures Valid()
      ensures storageFails ==> r == FormError("Failed to create notification.") && notifications == old(notifications)
      ensures !storageFails ==> r == Success(None) && notifications == old(notifications)[newId := FromDraft(d, newId, now)]
      ensures !storageFails ==> notifications[newId].userId == d.userId && !notifications[newId].isRead
    {
      if storageFails {
        return FormError("Failed to create notification.");
      }
      PutNotificationConsistent(users, projects, tasks, notifications, FromDraft(d, newId, now));
      notifications := notifications[newId := FromDraft(d, newId, now)];
      return Success(None);
    }

    /** `createTaskDueNotification`: succeeds for any task with an assignee and a
        due date, and notifies the assignee only when the due date is at most a day
        ahead. A failure inside `createNotification` is swallowed there. */
    method CreateTaskDueNotification(taskId: TaskId, now: int, lookupFails: bool, writeFails: bool, newId: NotificationId)
      returns (ok: bool)
      requires Valid()
      requires newId !in notifications
      modifies this`notifications
      ensures Valid()
      ensures ok <==> !lookupFails && taskId in tasks && tasks[taskId].assigneeId.Some? && tasks[taskId].dueDate.Some?
      ensures var reminder := if ok then DueReminder(tasks[taskId], projects[tasks[taskId].projectId].name, now) else None;
              notifications == if reminder.Some? && !writeFails
                               then old(notifications)[newId := FromDraft(reminder.value, newId, now)]
                               else old(notifications)
    {
      if lookupFails || taskId !in tasks {
        return false;
      }
      var task := tasks[taskId];
      if task.assigneeId.None? || task.dueDate.None? {
        return false;
      }
      var reminder := DueReminder(task, projects[task.projectId].name, now);
      if reminder.Some? {
        var _ := CreateNotification(reminder.value, writeFails, newId, now);
      }
      return true;
    }

    /** `createTaskAssignedNotification`: fails when the task has no assignee or the
        assignee is the assigner; otherwise notifies the assignee. */
    method CreateTaskAssignedNotification(taskId: TaskId, assignerId: UserId, lookupFails: bool, writeFails: bool,
                                          newId: NotificationId, now: int)
      returns (ok: bool)
      requires Valid()
      requires newId !in notifications
      modifies this`notifications
      ensures Valid()
      ensures ok <==> !lookupFails && taskId in tasks && tasks[taskId].assigneeId.Some?
                      && tasks[taskId].assigneeId.value != assignerId
      ensures ok && !writeFails ==>
                notifications == old(notifications)[newId := FromDraft(
                  AssignedNotice(tasks[taskId], projects[tasks[taskId].projectId].name, assignerId).value, newId, now)]
      ensures !ok || writeFails ==> notifications == old(notifications)
    {
      if lookupFails || taskId !in tasks {
        return false;
      }
      var task := tasks[taskId];
      var notice := AssignedNotice(task, projects[task.projectId].name, assignerId);
      if notice.None? {
        return false;
      }
      var _ := CreateNotification(notice.value, writeFails, newId, now);
      return true;
    }

    /** `createProjectUpdateNotification`: notifies the owner of an existing project. */
    method CreateProjectUpdateNotification(projectId: ProjectId, updateMessage: string, lookupFails: bool,
                                           writeFails: bool, newId: NotificationId, now: int)
      returns (ok: bool)
      requires Valid()
      requires newId !in notifications
      modifies this`notifications
      ensures Valid()
      ensures ok <==> !lookupFails && projectId in projects
      ensures ok && !writeFails ==>
                notifications == old(notifications)[newId := FromDraft(
                  ProjectUpdateNotice(projects[projectId], updateMessage), newId, now)]
      ensures !ok || writeFails ==> notifications == old(notifications)
    {
      if lookupFails || projectId !in projects {
        return false;
      }
      var _ := CreateNotification(ProjectUpdateNotice(projects[projectId], updateMessage), writeFails, newId, now);
      return true;
    }
  }

  /** Signing up and then logging in with the same e-mail and password signs in
      the new user. */
  method SignupLoginRoundTrip(store: Store, form: SignupForm, newId: UserId)
    returns (signedUp: ActionResult, loggedIn: ActionResult)
    requires store.Valid()
    requires newId != "" && newId !in store.users
    requires ValidateSignup(form).Parsed? && FindUserByEmail(store.users, ValidateSignup(form).value.email).None?
    modifies store
    ensures signedUp == Success(Some(newId)) && loggedIn == Success(Some(newId))
    ensures store.CurrentUserId() == Some(newId)
  {
    var input := ValidateSignup(form).value;
    signedUp := store.Signup(form, false, newId);
    loggedIn := store.Login(LoginForm(Some(input.email), Some(input.password)), false);
  }
}

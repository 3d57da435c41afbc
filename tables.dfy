/** Queries and bulk writes on the tables, as pure functions of the maps that
    hold them: the `where` filters of the Prisma calls in the server actions. */
module Tables {
  import opened Common
  import opened Model

  /** The unique index on `User.email` that `findUnique({ where: { email } })` relies on. */
  predicate UniqueEmails(users: map<UserId, User>) {
    forall a, b | a in users && b in users && users[a].email == users[b].email :: a == b
  }

  /** `prisma.user.findUnique({ where: { email } })`. */
  function FindUserByEmail(users: map<UserId, User>, email: string): (r: Option<UserId>)
    requires UniqueEmails(users)
    ensures r.Some? ==> r.value in users && users[r.value].email == email
    ensures r.None? <==> forall u | u in users :: users[u].email != email
  {
    if exists u | u in users :: users[u].email == email then
      var u :| u in users && users[u].email == email; Some(u)
    else None
  }

  /** The user `login` signs in: the one registered under `email`, if the password matches its hash. */
  function Authenticate(users: map<UserId, User>, email: string, password: string): (r: Option<UserId>)
    requires UniqueEmails(users)
    ensures r.Some? <==> exists u | u in users :: users[u].email == email && Compare(password, users[u].password)
    ensures r.Some? ==> r.value in users && users[r.value].email == email
  {
    match FindUserByEmail(users, email)
    case None => None
    case Some(u) => if Compare(password, users[u].password) then Some(u) else None
  }

  /** Signing up a fresh e-mail keeps e-mails unique, and a later login with the
      same e-mail and password finds exactly the new user. */
  lemma SignupThenLogin(users: map<UserId, User>, id: UserId, name: string, email: string, password: string)
    requires UniqueEmails(users)
    requires id !in users
    requires FindUserByEmail(users, email).None?
    ensures UniqueEmails(users[id := User(id, name, email, Hash(password))])
    ensures Authenticate(users[id := User(id, name, email, Hash(password))], email, password) == Some(id)
  {
    var users' := users[id := User(id, name, email, Hash(password))];
    assert forall u | u in users' && u != id :: users'[u] == users[u];
    assert UniqueEmails(users');
    var found := FindUserByEmail(users', email);
    assert users'[id].email == email;
    assert found == Some(id);
  }

  /** `findUnique({ where: { id, userId } })` on the project table. */
  predicate Owns(projects: map<ProjectId, Project>, id: ProjectId, uid: UserId) {
    id in projects && projects[id].userId == uid
  }

  /** A task is reachable by `uid` exactly when its parent project is owned by `uid`;
      a task has no owner of its own. */
  predicate TaskOwnedBy(projects: map<ProjectId, Project>, tasks: map<TaskId, Task>, id: TaskId, uid: UserId) {
    id in tasks && Owns(projects, tasks[id].projectId, uid)
  }

  /** `findMany({ where: { userId } })` on the project table. */
  function OwnedProjects(projects: map<ProjectId, Project>, uid: UserId): set<Project> {
    set p | p in projects.Values && p.userId == uid
  }

  /** `findMany({ where: { projectId } })` on the task table. */
  function ProjectTasks(tasks: map<TaskId, Task>, pid: ProjectId): set<Task> {
    set t | t in tasks.Values && t.projectId == pid
  }

  /** `findMany({ where: { project: { userId } } })` on the task table. */
  function OwnedTasks(projects: map<ProjectId, Project>, tasks: map<TaskId, Task>, uid: UserId): set<Task> {
    set t | t in tasks.Values && Owns(projects, t.projectId, uid)
  }

  /** `task.deleteMany({ where: { projectId } })`. */
  function CascadeDelete(tasks: map<TaskId, Task>, pid: ProjectId): (r: map<TaskId, Task>)
    ensures forall t | t in r :: r[t].projectId != pid
    ensures forall t | t in tasks :: t in r <==> tasks[t].projectId != pid
    ensures forall t | t in r :: t in tasks && r[t] == tasks[t]
  {
    map t | t in tasks && tasks[t].projectId != pid :: tasks[t]
  }

  /** `notification.updateMany({ where: { userId, isRead: false }, data: { isRead: true } })`. */
  function MarkAllRead(notes: map<NotificationId, Notification>, uid: UserId): (r: map<NotificationId, Notification>)
    ensures r.Keys == notes.Keys
    ensures forall n | n in notes && notes[n].userId != uid :: r[n] == notes[n]
    ensures forall n | n in notes && notes[n].userId == uid :: r[n] == notes[n].(isRead := true)
  {
    map n | n in notes :: if notes[n].userId == uid && !notes[n].isRead then notes[n].(isRead := true) else notes[n]
  }

  function Unread(notes: map<NotificationId, Notification>, uid: UserId): set<NotificationId> {
    set n | n in notes && notes[n].userId == uid && !notes[n].isRead
  }

  /** After marking all as read the user has no unread notification, and doing it
      again changes nothing. */
  lemma MarkAllReadSettles(notes: map<NotificationId, Notification>, uid: UserId)
    ensures Unread(MarkAllRead(notes, uid), uid) == {}
    ensures MarkAllRead(MarkAllRead(notes, uid), uid) == MarkAllRead(notes, uid)
  {
    var once := MarkAllRead(notes, uid);
    var twice := MarkAllRead(once, uid);
    forall n | n in once ensures twice[n] == once[n] {
      if notes[n].userId == uid {
        assert once[n].isRead;
      }
    }
    assert forall n | n in once :: !(once[n].userId == uid && !once[n].isRead);
  }

  /** Marking all as read leaves none of the user's notifications unread. */
  lemma MarkAllReadClears(notes: map<NotificationId, Notification>, uid: UserId)
    ensures forall n | n in MarkAllRead(notes, uid).Values && n.userId == uid :: n.isRead
  {
    var r := MarkAllRead(notes, uid);
    forall n | n in r.Values && n.userId == uid ensures n.isRead {
      var k :| k in r && r[k] == n;
      assert notes[k].userId == uid;
    }
  }

  // ------------------------------------------------------------ integrity

  /** The constraints the schema keeps on the four tables: rows are stored under
      their ids, foreign keys point at existing rows, e-mails are unique, and a
      task's priority is one of the enum's values. */
  predicate Consistent(users: map<UserId, User>, projects: map<ProjectId, Project>,
                       tasks: map<TaskId, Task>, notes: map<NotificationId, Notification>) {
    && (forall u | u in users :: users[u].id == u)
    && "" !in users
    && UniqueEmails(users)
    && (forall p | p in projects :: projects[p].id == p && projects[p].userId in users)
    && (forall t | t in tasks :: tasks[t].id == t && tasks[t].projectId in projects)
    && (forall t | t in tasks :: tasks[t].priority in PriorityValues)
    && (forall t | t in tasks && tasks[t].assigneeId.Some? :: tasks[t].assigneeId.value in users)
    && (forall n | n in notes :: notes[n].id == n)
  }

  lemma AddUserConsistent(users: map<UserId, User>, projects: map<ProjectId, Project>,
                          tasks: map<TaskId, Task>, notes: map<NotificationId, Notification>, u: User)
    requires Consistent(users, projects, tasks, notes)
    requires u.id != "" && UniqueEmails(users[u.id := u])
    ensures Consistent(users[u.id := u], projects, tasks, notes)
  {
  }

  lemma PutProjectConsistent(users: map<UserId, User>, projects: map<ProjectId, Project>,
                             tasks: map<TaskId, Task>, notes: map<NotificationId, Notification>, p: Project)
    requires Consistent(users, projects, tasks, notes)
    requires p.userId in users
    ensures Consistent(users, projects[p.id := p], tasks, notes)
  {
  }

  lemma DropProjectConsistent(users: map<UserId, User>, projects: map<ProjectId, Project>,
                              tasks: map<TaskId, Task>, notes: map<NotificationId, Notification>, id: ProjectId)
    requires Consistent(users, projects, tasks, notes)
    ensures Consistent(users, projects - {id}, CascadeDelete(tasks, id), notes)
  {
  }

  lemma PutTaskConsistent(users: map<UserId, User>, projects: map<ProjectId, Project>,
                          tasks: map<TaskId, Task>, notes: map<NotificationId, Notification>, t: Task)
    requires Consistent(users, projects, tasks, notes)
    requires t.projectId in projects && t.priority in PriorityValues
    requires t.assigneeId.Some? ==> t.assigneeId.value in users
    ensures Consistent(users, projects, tasks[t.id := t], notes)
  {
  }

  lemma DropTaskConsistent(users: map<UserId, User>, projects: map<ProjectId, Project>,
                           tasks: map<TaskId, Task>, notes: map<NotificationId, Notification>, id: TaskId)
    requires Consistent(users, projects, tasks, notes)
    ensures Consistent(users, projects, tasks - {id}, notes)
  {
  }

  lemma PutNotificationConsistent(users: map<UserId, User>, projects: map<ProjectId, Project>,
                                  tasks: map<TaskId, Task>, notes: map<NotificationId, Notification>, n: Notification)
    requires Consistent(users, projects, tasks, notes)
    ensures Consistent(users, projects, tasks, notes[n.id := n])
  {
  }

  lemma MarkAllReadConsistent(users: map<UserId, User>, projects: map<ProjectId, Project>,
                              tasks: map<TaskId, Task>, notes: map<NotificationId, Notification>, uid: UserId)
    requires Consistent(users, projects, tasks, notes)
    ensures Consistent(users, projects, tasks, MarkAllRead(notes, uid))
  {
  }
}

/** The mock backend (class `MockAPI`, src/services/mockApi.ts): three tables of users, projects
    and tasks, each kept under its own key of the browser's key-value storage. Every operation
    reads a table, changes it and writes it back. Fresh ids, timestamps and tokens, which the
    source draws from `uuidv4`, `Date` and a token generator, are inputs. */
module MockApi {
  import opened Wrappers
  import opened Records
  import opened Tables

  const UserExists: string := "User already exists"
  const ProjectNotFound: string := "Project not found"
  const TaskNotFound: string := "Task not found"

  /** A user row as stored, password included. */
  datatype StoredUser = StoredUser(id: string, email: string, password: string, name: string, createdAt: string)

  /** A user as the API hands it out: the stored row without its password. */
  datatype PublicUser = PublicUser(id: string, email: string, name: string, createdAt: string)

  /** What login and register resolve to. */
  datatype AuthPayload = AuthPayload(user: PublicUser, token: string)

  /** A new project as callers pass it: everything but the id and the timestamps. */
  datatype ProjectDraft = ProjectDraft(name: string, description: string, userId: string, status: ProjectStatus)

  /** A new task as callers pass it: everything but the id and the timestamps. */
  datatype TaskDraft = TaskDraft(title: string, description: string, projectId: string, completed: bool, priority: Priority)

  /** `Partial<Project>`: None for a field the update object does not carry. */
  datatype ProjectPatch = ProjectPatch(
    id: Option<string>,
    name: Option<string>,
    description: Option<string>,
    userId: Option<string>,
    createdAt: Option<string>,
    updatedAt: Option<string>,
    status: Option<ProjectStatus>)

  /** `Partial<Task>`: None for a field the update object does not carry. */
  datatype TaskPatch = TaskPatch(
    id: Option<string>,
    title: Option<string>,
    description: Option<string>,
    projectId: Option<string>,
    completed: Option<bool>,
    priority: Option<Priority>,
    createdAt: Option<string>,
    updatedAt: Option<string>)

  function UserEmail(u: StoredUser): string { u.email }

  /** `const { password: _, ...userWithoutPassword } = user`. */
  function Strip(u: StoredUser): (r: PublicUser)
    ensures r.id == u.id && r.email == u.email && r.name == u.name && r.createdAt == u.createdAt
  {
    PublicUser(u.id, u.email, u.name, u.createdAt)
  }

  function Pick<T>(field: Option<T>, current: T): T
  {
    if field.Some? then field.value else current
  }

  /** `{ ...p, ...updates, updatedAt: now }`. */
  function MergeProject(p: Project, updates: ProjectPatch, now: string): (r: Project)
    ensures r.updatedAt == now
    ensures updates.id.None? ==> r.id == p.id
    ensures updates.name.None? ==> r.name == p.name
    ensures updates.description.None? ==> r.description == p.description
    ensures updates.userId.None? ==> r.userId == p.userId
    ensures updates.createdAt.None? ==> r.createdAt == p.createdAt
    ensures updates.status.None? ==> r.status == p.status
    ensures updates.id.Some? ==> r.id == updates.id.value
    ensures updates.name.Some? ==> r.name == updates.name.value
    ensures updates.description.Some? ==> r.description == updates.description.value
    ensures updates.userId.Some? ==> r.userId == updates.userId.value
    ensures updates.createdAt.Some? ==> r.createdAt == updates.createdAt.value
    ensures updates.status.Some? ==> r.status == updates.status.value
  {
    Project(
      Pick(updates.id, p.id),
      Pick(updates.name, p.name),
      Pick(updates.description, p.description),
      Pick(updates.userId, p.userId),
      Pick(updates.createdAt, p.createdAt),
      now,
      Pick(updates.status, p.status))
  }

  /** `{ ...t, ...updates, updatedAt: now }`. */
  function MergeTask(t: Task, updates: TaskPatch, now: string): (r: Task)
    ensures r.updatedAt == now
    ensures updates.id.None? ==> r.id == t.id
    ensures updates.title.None? ==> r.title == t.title
    ensures updates.description.None? ==> r.description == t.description
    ensures updates.projectId.None? ==> r.projectId == t.projectId
    ensures updates.completed.None? ==> r.completed == t.completed
    ensures updates.priority.None? ==> r.priority == t.priority
    ensures updates.createdAt.None? ==> r.createdAt == t.createdAt
    ensures updates.id.Some? ==> r.id == updates.id.value
    ensures updates.title.Some? ==> r.title == updates.title.value
    ensures updates.description.Some? ==> r.description == updates.description.value
    ensures updates.projectId.Some? ==> r.projectId == updates.projectId.value
    ensures updates.completed.Some? ==> r.completed == updates.completed.value
    ensures updates.priority.Some? ==> r.priority == updates.priority.value
    ensures updates.createdAt.Some? ==> r.createdAt == updates.createdAt.value
  {
    Task(
      Pick(updates.id, t.id),
      Pick(updates.title, t.title),
      Pick(updates.description, t.description),
      Pick(updates.projectId, t.projectId),
      Pick(updates.completed, t.completed),
      Pick(updates.priority, t.priority),
      Pick(updates.createdAt, t.createdAt),
      now)
  }

  /** Merging the same update twice at the same time is merging it once. */
  lemma MergeIdempotent(p: Project, updates: ProjectPatch, t: Task, tu: TaskPatch, now: string)
    ensures MergeProject(MergeProject(p, updates, now), updates, now) == MergeProject(p, updates, now)
    ensures MergeTask(MergeTask(t, tu, now), tu, now) == MergeTask(t, tu, now)
  {
  }

  predicate Credentials(u: StoredUser, email: string, password: string)
  {
    u.email == email && u.password == password
  }

  /** `users.find(u => u.email === email && u.password === password)`. */
  function FindUser(users: seq<StoredUser>, email: string, password: string): (r: Option<StoredUser>)
    ensures r.None? <==> forall i :: 0 <= i < |users| ==> !Credentials(users[i], email, password)
    ensures r.Some? ==> exists i :: 0 <= i < |users| && users[i] == r.value && Credentials(r.value, email, password)
                           && forall j :: 0 <= j < i ==> !Credentials(users[j], email, password)
  {
    if users == [] then None
    else if Credentials(users[0], email, password) then Some(users[0])
    else
      FindUser(users[1..], email, password)
  }

  /** A user registered with an email nobody else has is the user a login with the same
      credentials finds. */
  lemma {:induction false} FindRegistered(users: seq<StoredUser>, u: StoredUser)
    requires forall i :: 0 <= i < |users| ==> users[i].email != u.email
    ensures FindUser(users + [u], u.email, u.password) == Some(u)
  {
    if users == [] {
      assert users + [u] == [u];
    } else {
      assert (users + [u])[1..] == users[1..] + [u];
      FindRegistered(users[1..], u);
    }
  }

  class Backend {
    /** The storage entries `users`, `projects` and `tasks`; None while a key is absent. */
    var usersCell: Option<seq<StoredUser>>
    var projectsCell: Option<seq<Project>>
    var tasksCell: Option<seq<Task>>

    constructor (users: Option<seq<StoredUser>>, projects: Option<seq<Project>>, tasks: Option<seq<Task>>)
      ensures usersCell == users && projectsCell == projects && tasksCell == tasks
    {
      usersCell := users;
      projectsCell := projects;
      tasksCell := tasks;
    }

    // `getFromStorage` on each key: an absent key reads as the empty table.
    function Users(): (r: seq<StoredUser>)
      reads this
      ensures usersCell.None? ==> r == []
      ensures usersCell.Some? ==> r == usersCell.value
    {
      OrEmpty(usersCell)
    }

    function Projects(): (r: seq<Project>)
      reads this
      ensures projectsCell.None? ==> r == []
      ensures projectsCell.Some? ==> r == projectsCell.value
    {
      OrEmpty(projectsCell)
    }

    function Tasks(): (r: seq<Task>)
      reads this
      ensures tasksCell.None? ==> r == []
      ensures tasksCell.Some? ==> r == tasksCell.value
    {
      OrEmpty(tasksCell)
    }

    /** `login`: some stored user has exactly these credentials; the first such user is
        returned without its password, with a freshly minted `token`. */
    function Login(email: string, password: string, token: string): (r: Option<AuthPayload>)
      reads this
      ensures r.Some? <==> exists i :: 0 <= i < |Users()| && Credentials(Users()[i], email, password)
      ensures r.Some? ==> r.value.token == token
                          && exists i :: 0 <= i < |Users()| && Credentials(Users()[i], email, password)
                                         && r.value.user == Strip(Users()[i])
                                         && forall j :: 0 <= j < i ==> !Credentials(Users()[j], email, password)
    {
      match FindUser(Users(), email, password)
      case None => None
      case Some(u) => Some(AuthPayload(Strip(u), token))
    }

    /** `register`: refuses an email already stored; otherwise stores the new row and signs
        it in. */
    method Register(email: string, password: string, name: string, newId: string, now: string, token: string)
      returns (r: Result<AuthPayload, string>)
      modifies this
      ensures r.Err? <==> exists i :: 0 <= i < |old(Users())| && old(Users())[i].email == email
      ensures r.Err? ==> r.error == UserExists && usersCell == old(usersCell)
      ensures r.Ok? ==> usersCell == Some(old(Users()) + [StoredUser(newId, email, password, name, now)])
                        && r.value == AuthPayload(PublicUser(newId, email, name, now), token)
      ensures r.Ok? ==> Login(email, password, token) == Some(r.value)
      ensures projectsCell == old(projectsCell) && tasksCell == old(tasksCell)
    {
      var users := Users();
      var found := FindIndex(users, UserEmail, email);
      if found != -1 {
        return Err(UserExists);
      }
      var row := StoredUser(newId, email, password, name, now);
      FindRegistered(users, row);
      users := users + [row];
      usersCell := Some(users);
      r := Ok(AuthPayload(Strip(row), token));
    }

    /** `getProjects`: the projects of that user, in stored order. */
    function GetProjects(userId: string): (r: seq<Project>)
      reads this
      ensures forall i :: 0 <= i < |r| ==> r[i] in Projects() && r[i].userId == userId
      ensures forall i :: 0 <= i < |Projects()| && Projects()[i].userId == userId ==> Projects()[i] in r
      ensures forall p :: multiset(r)[p] == if p.userId == userId then multiset(Projects())[p] else 0
      ensures SubsequenceOf(r, Projects())
    {
      KeepDropCounts(Projects(), ProjectOwner, userId);
      Keep(Projects(), ProjectOwner, userId)
    }

    /** `createProject`: appends the draft completed with a fresh id and its timestamps. */
    method CreateProject(draft: ProjectDraft, newId: string, createdAt: string, updatedAt: string)
      returns (p: Project)
      modifies this
      ensures p == Project(newId, draft.name, draft.description, draft.userId, createdAt, updatedAt, draft.status)
      ensures projectsCell == Some(old(Projects()) + [p])
      ensures usersCell == old(usersCell) && tasksCell == old(tasksCell)
      ensures UniqueKeys(old(Projects()), ProjectId) && (forall i :: 0 <= i < |old(Projects())| ==> old(Projects())[i].id != newId)
              ==> UniqueKeys(Projects(), ProjectId)
    {
      var projects := Projects();
      p := Project(newId, draft.name, draft.description, draft.userId, createdAt, updatedAt, draft.status);
      if UniqueKeys(projects, ProjectId) && (forall i :: 0 <= i < |projects| ==> projects[i].id != newId) {
        AppendFreshKeepsUnique(projects, ProjectId, p);
      }
      projects := projects + [p];
      projectsCell := Some(projects);
    }

    /** `updateProject`: merges the update into the first project with that id and returns the
        stored result; an unknown id throws and writes nothing. */
    method UpdateProject(id: string, updates: ProjectPatch, now: string) returns (r: Result<Project, string>)
      modifies this
      ensures var i := IndexOf(old(Projects()), ProjectId, id);
        && (i == -1 ==> r == Err(ProjectNotFound) && projectsCell == old(projectsCell))
        && (i >= 0 ==> var m := MergeProject(old(Projects())[i], updates, now);
                       r == Ok(m) && projectsCell == Some(old(Projects())[i := m]))
      ensures usersCell == old(usersCell) && tasksCell == old(tasksCell)
    {
      var projects := Projects();
      var index := FindIndex(projects, ProjectId, id);
      if index == -1 {
        return Err(ProjectNotFound);
      }
      var merged := MergeProject(projects[index], updates, now);
      projects := projects[index := merged];
      projectsCell := Some(projects);
      r := Ok(merged);
    }

    /** `deleteProject`: removes the project and every task of it. */
    method DeleteProject(id: string)
      modifies this
      ensures projectsCell == Some(Drop(old(Projects()), ProjectId, id))
      ensures tasksCell == Some(Drop(old(Tasks()), TaskProject, id))
      ensures usersCell == old(usersCell)
      ensures GetTasks(id) == []
      ensures forall other :: other != id ==> GetTasks(other) == old(GetTasks(other))
      ensures UniqueKeys(old(Projects()), ProjectId) ==> UniqueKeys(Projects(), ProjectId)
    {
      var projects := Projects();
      var tasks := Tasks();
      if UniqueKeys(projects, ProjectId) {
        DropKeepsUnique(projects, ProjectId, id);
      }
      forall other ensures Keep(Drop(tasks, TaskProject, id), TaskProject, other)
                           == if other == id then [] else Keep(tasks, TaskProject, other) {
        KeepAfterDrop(tasks, TaskProject, id, other);
      }
      projectsCell := Some(Drop(projects, ProjectId, id));
      tasksCell := Some(Drop(tasks, TaskProject, id));
    }

    /** `getTasks`: the tasks of that project, in stored order. */
    function GetTasks(projectId: string): (r: seq<Task>)
      reads this
      ensures forall i :: 0 <= i < |r| ==> r[i] in Tasks() && r[i].projectId == projectId
      ensures forall i :: 0 <= i < |Tasks()| && Tasks()[i].projectId == projectId ==> Tasks()[i] in r
      ensures forall t :: multiset(r)[t] == if t.projectId == projectId then multiset(Tasks())[t] else 0
      ensures SubsequenceOf(r, Tasks())
    {
      KeepDropCounts(Tasks(), TaskProject, projectId);
      Keep(Tasks(), TaskProject, projectId)
    }

    /** `createTask`: appends the draft completed with a fresh id and its timestamps. */
    method CreateTask(draft: TaskDraft, newId: string, createdAt: string, updatedAt: string)
      returns (t: Task)
      modifies this
      ensures t == Task(newId, draft.title, draft.description, draft.projectId, draft.completed, draft.priority, createdAt, updatedAt)
      ensures tasksCell == Some(old(Tasks()) + [t])
      ensures usersCell == old(usersCell) && projectsCell == old(projectsCell)
      ensures UniqueKeys(old(Tasks()), TaskId) && (forall i :: 0 <= i < |old(Tasks())| ==> old(Tasks())[i].id != newId)
              ==> UniqueKeys(Tasks(), TaskId)
    {
      var tasks := Tasks();
      t := Task(newId, draft.title, draft.description, draft.projectId, draft.completed, draft.priority, createdAt, updatedAt);
      if UniqueKeys(tasks, TaskId) && (forall i :: 0 <= i < |tasks| ==> tasks[i].id != newId) {
        AppendFreshKeepsUnique(tasks, TaskId, t);
      }
      tasks := tasks + [t];
      tasksCell := Some(tasks);
    }

    /** `updateTask`: merges the update into the first task with that id and returns the
        stored result; an unknown id throws and writes nothing. */
    method UpdateTask(id: string, updates: TaskPatch, now: string) returns (r: Result<Task, string>)
      modifies this
      ensures var i := IndexOf(old(Tasks()), TaskId, id);
        && (i == -1 ==> r == Err(TaskNotFound) && tasksCell == old(tasksCell))
        && (i >= 0 ==> var m := MergeTask(old(Tasks())[i], updates, now);
                       r == Ok(m) && tasksCell == Some(old(Tasks())[i := m]))
      ensures usersCell == old(usersCell) && projectsCell == old(projectsCell)
    {
      var tasks := Tasks();
      var index := FindIndex(tasks, TaskId, id);
      if index == -1 {
        return Err(TaskNotFound);
      }
      var merged := MergeTask(tasks[index], updates, now);
      tasks := tasks[index := merged];
      tasksCell := Some(tasks);
      r := Ok(merged);
    }

    /** `deleteTask`: removes every task with that id. */
    method DeleteTask(id: string)
      modifies this
      ensures tasksCell == Some(Drop(old(Tasks()), TaskId, id))
      ensures usersCell == old(usersCell) && projectsCell == old(projectsCell)
      ensures UniqueKeys(old(Tasks()), TaskId) ==> UniqueKeys(Tasks(), TaskId)
    {
      var tasks := Tasks();
      if UniqueKeys(tasks, TaskId) {
        DropKeepsUnique(tasks, TaskId, id);
      }
      tasksCell := Some(Drop(tasks, TaskId, id));
    }
  }
}

/** The resource store (`ProjectProvider`, src/contexts/ProjectContext.tsx): the projects and
    tasks the client holds, a shared loading flag and a shared error slot. Each operation sets
    `loading` and clears `error`, receives the server's outcome, applies one collection
    transform on success or its fixed message on failure, and clears `loading`. The HTTP call
    is not modelled: its outcome is an input, and each operation is one atomic step. */
module ResourceStore {
  import opened Wrappers
  import opened Records
  import opened Tables

  /** What an awaited request delivered: anything it threw (transport error, non-2xx status,
      a missing `result`) is `Failure`. */
  datatype Outcome<+T> = Failure | Success(payload: T)

  const FetchProjectsFailed: string := "Failed to fetch projects"
  const FetchTasksFailed: string := "Failed to fetch tasks"
  const CreateProjectFailed: string := "Failed to create project"
  const UpdateProjectFailed: string := "Failed to update project"
  const DeleteProjectFailed: string := "Failed to delete project"
  const CreateTaskFailed: string := "Failed to create task"
  const UpdateTaskFailed: string := "Failed to update task"
  const DeleteTaskFailed: string := "Failed to delete task"

  class Store {
    var projects: seq<Project>
    var tasks: seq<Task>
    var loading: bool
    var error: Option<string>

    constructor ()
      ensures projects == [] && tasks == [] && !loading && error == None
    {
      projects := [];
      tasks := [];
      loading := false;
      error := None;
    }

    /** The opening of every operation: the request is in flight and no error is shown. */
    method Begin()
      modifies this
      ensures loading && error == None
      ensures projects == old(projects) && tasks == old(tasks)
    {
      loading := true;
      error := None;
    }

    /** `fetchProjects`: a no-op without a signed-in user; otherwise the response's
        `result.projects` replaces the whole project list. */
    method FetchProjects(user: Option<User>, outcome: Outcome<Option<seq<Project>>>)
      modifies this
      ensures user.None? ==> projects == old(projects) && tasks == old(tasks)
                             && loading == old(loading) && error == old(error)
      ensures user.Some? ==> !loading && tasks == old(tasks)
      ensures user.Some? && outcome.Success? ==> projects == OrEmpty(outcome.payload) && error == None
      ensures user.Some? && outcome.Failure? ==> projects == old(projects) && error == Some(FetchProjectsFailed)
    {
      if user.None? {
        return;
      }
      Begin();
      match outcome {
      case Success(list) =>
        projects := OrEmpty(list);
      case Failure =>
        error := Some(FetchProjectsFailed);
      }
      loading := false;
    }

    /** `fetchTasks`: the response's `result.tasks` replaces the whole task list, discarding
        the tasks of any project shown before. */
    method FetchTasks(projectId: string, outcome: Outcome<Option<seq<Task>>>)
      modifies this
      ensures !loading && projects == old(projects)
      ensures outcome.Success? ==> tasks == OrEmpty(outcome.payload) && error == None
      ensures outcome.Failure? ==> tasks == old(tasks) && error == Some(FetchTasksFailed)
    {
      Begin();
      match outcome {
      case Success(list) =>
        tasks := OrEmpty(list);
      case Failure =>
        error := Some(FetchTasksFailed);
      }
      loading := false;
    }

    /** `createProject`: a no-op without a signed-in user; otherwise the server's record is
        appended. */
    method CreateProject(user: Option<User>, outcome: Outcome<Project>)
      modifies this
      ensures user.None? ==> projects == old(projects) && tasks == old(tasks)
                             && loading == old(loading) && error == old(error)
      ensures user.Some? ==> !loading && tasks == old(tasks)
      ensures user.Some? && outcome.Success? ==> projects == old(projects) + [outcome.payload] && error == None
      ensures user.Some? && outcome.Failure? ==> projects == old(projects) && error == Some(CreateProjectFailed)
    {
      if user.None? {
        return;
      }
      Begin();
      match outcome {
      case Success(p) =>
        projects := projects + [p];
      case Failure =>
        error := Some(CreateProjectFailed);
      }
      loading := false;
    }

    /** `updateProject`: every project with that id is replaced by the server's record. */
    method UpdateProject(id: string, outcome: Outcome<Project>)
      modifies this
      ensures !loading && tasks == old(tasks)
      ensures outcome.Success? ==> projects == Replace(old(projects), ProjectId, id, outcome.payload) && error == None
      ensures outcome.Failure? ==> projects == old(projects) && error == Some(UpdateProjectFailed)
    {
      Begin();
      match outcome {
      case Success(p) =>
        projects := Replace(projects, ProjectId, id, p);
      case Failure =>
        error := Some(UpdateProjectFailed);
      }
      loading := false;
    }

    /** `deleteProject`: drops the project and, client-side, every held task of it. The
        server's reply carries nothing the store uses. */
    method DeleteProject(id: string, outcome: Outcome<()>)
      modifies this
      ensures !loading
      ensures outcome.Success? ==> projects == Drop(old(projects), ProjectId, id)
                                   && tasks == Drop(old(tasks), TaskProject, id) && error == None
      ensures outcome.Failure? ==> projects == old(projects) && tasks == old(tasks)
                                   && error == Some(DeleteProjectFailed)
    {
      Begin();
      match outcome {
      case Success(_) =>
        projects := Drop(projects, ProjectId, id);
        tasks := Drop(tasks, TaskProject, id);
      case Failure =>
        error := Some(DeleteProjectFailed);
      }
      loading := false;
    }

    /** `createTask`: appends the server's record only when the response has a `result`;
        otherwise nothing changes and no error is reported. */
    method CreateTask(outcome: Outcome<Option<Task>>)
      modifies this
      ensures !loading && projects == old(projects)
      ensures outcome.Success? && outcome.payload.Some? ==> tasks == old(tasks) + [outcome.payload.value] && error == None
      ensures outcome.Success? && outcome.payload.None? ==> tasks == old(tasks) && error == None
      ensures outcome.Failure? ==> tasks == old(tasks) && error == Some(CreateTaskFailed)
    {
      Begin();
      match outcome {
      case Success(result) =>
        if result.Some? {
          tasks := tasks + [result.value];
        }
      case Failure =>
        error := Some(CreateTaskFailed);
      }
      loading := false;
    }

    /** `updateTask`: every task with that id is replaced by the server's record. */
    method UpdateTask(id: string, outcome: Outcome<Task>)
      modifies this
      ensures !loading && projects == old(projects)
      ensures outcome.Success? ==> tasks == Replace(old(tasks), TaskId, id, outcome.payload) && error == None
      ensures outcome.Failure? ==> tasks == old(tasks) && error == Some(UpdateTaskFailed)
    {
      Begin();
      match outcome {
      case Success(t) =>
        tasks := Replace(tasks, TaskId, id, t);
      case Failure =>
        error := Some(UpdateTaskFailed);
      }
      loading := false;
    }

    /** `deleteTask`: drops every task with that id. */
    method DeleteTask(id: string, outcome: Outcome<()>)
      modifies this
      ensures !loading && projects == old(projects)
      ensures outcome.Success? ==> tasks == Drop(old(tasks), TaskId, id) && error == None
      ensures outcome.Failure? ==> tasks == old(tasks) && error == Some(DeleteTaskFailed)
    {
      Begin();
      match outcome {
      case Success(_) =>
        tasks := Drop(tasks, TaskId, id);
      case Failure =>
        error := Some(DeleteTaskFailed);
      }
      loading := false;
    }
  }

  /** Deleting a project leaves no project with that id and no task of it, and keeps every
      other project and task, in order. */
  lemma DeleteProjectCascade(projects: seq<Project>, tasks: seq<Task>, id: string)
    ensures forall p :: p in Drop(projects, ProjectId, id) ==> p.id != id
    ensures forall t :: t in Drop(tasks, TaskProject, id) ==> t.projectId != id
    ensures forall i :: 0 <= i < |projects| && projects[i].id != id ==> projects[i] in Drop(projects, ProjectId, id)
    ensures forall i :: 0 <= i < |tasks| && tasks[i].projectId != id ==> tasks[i] in Drop(tasks, TaskProject, id)
    ensures |Drop(projects, ProjectId, id)| == |projects| - |Keep(projects, ProjectId, id)|
    ensures |Drop(tasks, TaskProject, id)| == |tasks| - |Keep(tasks, TaskProject, id)|
  {
    KeepDropPartition(projects, ProjectId, id);
    KeepDropPartition(tasks, TaskProject, id);
  }

  /** A fetch that fails keeps the projects an earlier fetch delivered and reports its
      message; a second task fetch discards the tasks of the first. */
  method FetchScenario(user: User, prior: seq<Project>, firstTasks: seq<Task>, secondTasks: seq<Task>)
    returns (projects: seq<Project>, tasks: seq<Task>, loading: bool, error: Option<string>)
    ensures projects == prior && tasks == secondTasks
    ensures !loading && error == Some(FetchProjectsFailed)
  {
    var store := new Store();
    store.FetchProjects(Some(user), Success(Some(prior)));
    store.FetchTasks("p", Success(Some(firstTasks)));
    store.FetchTasks("q", Success(Some(secondTasks)));
    store.FetchProjects(Some(user), Failure);
    projects, tasks, loading, error := store.projects, store.tasks, store.loading, store.error;
  }

  /** Without a signed-in user, fetching and creating projects change nothing. */
  method SignedOutScenario(p: Project, list: seq<Project>)
    returns (projects: seq<Project>, tasks: seq<Task>, loading: bool, error: Option<string>)
    ensures projects == [] && tasks == [] && !loading && error == None
  {
    var store := new Store();
    store.FetchProjects(None, Success(Some(list)));
    store.CreateProject(None, Success(p));
    projects, tasks, loading, error := store.projects, store.tasks, store.loading, store.error;
  }
}

/** The records exchanged by the client and the server (src/types/index.ts). */
module Records {

  datatype ProjectStatus = Active | Completed | OnHold

  datatype Priority = Low | Medium | High

  /** The signed-in user as the authentication endpoint returns it; `token` is "" when the
      response carries none (a missing and an empty token are both falsy in the source). */
  datatype User = User(id: string, email: string, name: string, createdAt: string, token: string)

  datatype Project = Project(
    id: string,
    name: string,
    description: string,
    userId: string,
    createdAt: string,
    updatedAt: string,
    status: ProjectStatus)

  datatype Task = Task(
    id: string,
    title: string,
    description: string,
    projectId: string,
    completed: bool,
    priority: Priority,
    createdAt: string,
    updatedAt: string)

  // Key extractors, passed to the collection transforms of module Tables.

  function ProjectId(p: Project): string { p.id }

  function ProjectOwner(p: Project): string { p.userId }

  function TaskId(t: Task): string { t.id }

  function TaskProject(t: Task): string { t.projectId }
}

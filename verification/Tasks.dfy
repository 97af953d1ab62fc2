/** The queue tasks of backend/copr_backend/rpm_builds.py, as far as scheduling looks at them. */
module Tasks {
  import opened Wrappers

  /** repr(task), the string form of the task id. */
  type Id(==) = string

  /** A build task: what the frontend sent, and the backend priority assigned to it. */
  datatype Task = Task(
    id: Id,
    sourceBuild: bool,
    background: bool,
    rawPriority: int,
    backendPriority: int,
    owner: string,
    arch: Option<string>,
    sandbox: Option<string>,
    tags: set<string>,
    userSsh: bool)

  const PRIORITY_SECTION_SIZE := 1000000

  /** BuildQueueTask.frontend_priority */
  function FrontendPriority(t: Task): int {
    t.rawPriority
    + (if t.background then 2 * PRIORITY_SECTION_SIZE else 0)
    + (if !t.sourceBuild then PRIORITY_SECTION_SIZE else 0)
  }

  /** BackendQueueTask.priority */
  function Priority(t: Task): int {
    FrontendPriority(t) + t.backendPriority
  }
}

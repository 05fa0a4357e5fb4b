/**
 * Client code replaying typical usage sequences against the
 * stores' contracts alone: each assertion follows from the postconditions.
 */
module Scenarios {
  import opened Remote
  import opened Collections
  import opened ProjectTypes
  import opened ActiveProject
  import opened Projects
  import opened Tasks
  import opened Router
  import opened Auth

  /** An empty store fetches one project, which becomes active. */
  method FirstFetchSelectsProject(p1: Project)
  {
    var holder := new ActiveProjectStore();
    var store := new ProjectStore(holder);
    store.FetchProjects(Reply(Some([p1]), None));
    assert holder.activeProject == Some(p1);
    assert store.Consistent();
  }

  /** With [P1, P2] and P1 active, deleting P1 makes P2 active. */
  method DeleteActiveRepoints(p1: Project, p2: Project)
    requires p1.id != p2.id
  {
    var holder := new ActiveProjectStore();
    var store := new ProjectStore(holder);
    store.FetchProjects(Reply(Some([p1, p2]), None));
    assert holder.activeProject == Some(p1);
    var ok := store.DeleteProject(p1.id, Reply(None, None));
    assert [p1, p2] == [p1] + [p2];
    WithoutConcat([p1], [p2], ProjectId, p1.id);
    assert store.projects == [p2];
    assert holder.activeProject == Some(p2);
  }

  /** Clearing the active project twice leaves the same state as clearing once. */
  method ClearTwice(holder: ActiveProjectStore)
    modifies holder
  {
    holder.ClearActiveProject();
    var once := holder.activeProject;
    holder.ClearActiveProject();
    assert holder.activeProject == once;
  }

  /** Three tasks in "doing": creating a fourth fails before any call. */
  method CreateAtLimitRejected(a: Task, b: Task, c: Task, p: CreateTaskPayload, reply: Reply<Task>)
    requires a.status == Doing && b.status == Doing && c.status == Doing
    requires p.status == Doing
  {
    var store := new TaskStore();
    store.FetchTasks(p.projectId, Reply(Some([a, b, c]), None));
    assert [a, b, c][..2] == [a, b] && [a, b][..1] == [a];
    assert CountDoing([a, b]) == 2;
    assert store.DoingCount() == 3;
    var calls := store.requests;
    var ok := store.CreateTask(p, reply);
    assert !ok && store.error == Some(WipLimitError);
    assert store.tasks == [a, b, c] && store.requests == calls;
  }

  /** A "todo" task moved to "doing" while three others are in "doing" is rejected. */
  method MoveToDoingAtLimit(t: Task, a: Task, b: Task, c: Task, reply: Reply<Task>)
    requires t.status == Todo && a.status == Doing && b.status == Doing && c.status == Doing
  {
    var store := new TaskStore();
    store.FetchTasks(t.projectId, Reply(Some([t, a, b, c]), None));
    assert [t, a, b, c][..3] == [t, a, b] && [t, a, b][..2] == [t, a] && [t, a][..1] == [t];
    assert CountDoing([t, a, b]) == 2;
    assert store.DoingCount() == 3;
    assert FirstMatch(store.tasks, TaskId, t.id, 0);
    var ok := store.UpdateStatus(t.id, Doing, reply);
    assert !ok && store.tasks == [t, a, b, c];
  }

  /** The same move with two others in "doing" succeeds and brings the count to three. */
  method MoveToDoingBelowLimit(t: Task, a: Task, b: Task, moved: Task)
    requires t.status == Todo && a.status == Doing && b.status == Doing
    requires moved.id == t.id && moved.status == Doing
  {
    var store := new TaskStore();
    store.FetchTasks(t.projectId, Reply(Some([t, a, b]), None));
    assert store.tasks == [t, a, b];
    assert [t, a, b][..2] == [t, a] && [t, a][..1] == [t];
    assert CountDoing([t, a]) == 1;
    assert store.DoingCount() == 2;
    assert FirstMatch(store.tasks, TaskId, t.id, 0);
    var ok := store.UpdateStatus(t.id, Doing, Reply(Some(moved), None));
    assert ok && store.tasks == [moved, a, b];
    assert [moved, a, b][..2] == [moved, a] && [moved, a][..1] == [moved];
    assert CountDoing([moved, a]) == 2;
    assert store.DoingCount() == 3;
  }

  /** The guard sends a visitor to `login` and a signed-in user away from it. */
  method GuardRedirects(u: AuthUser)
  {
    assert Guard(Reply(None, None), Absent) == Redirect(LoginRoute);
    assert Guard(Reply(Some(u), None), RouteMeta("login")) == Redirect(HomeRoute);
    assert Guard(Reply(None, Some(ErrorInfo("lookup failed"))), RouteMeta("home")) == Redirect(LoginRoute);
  }
}

/**
 * The project store (`useProjects`): the project list, a `loading` flag and
 * an `error` slot, plus the shared active-project holder, which every
 * operation keeps pointing into the list.
 */
module Projects {
  import opened Remote
  import opened Collections
  import opened ProjectTypes
  import opened ActiveProject

  /** A call issued to the project service. */
  datatype ProjectRequest =
    | FetchProjectsRequest
    | CreateProjectRequest(name: string)
    | UpdateProjectRequest(id: string, name: string)
    | DeleteProjectRequest(id: string)

  /**
   * The active project is an element of the list, and something is active
   * whenever the list is non-empty (so an empty list has nothing active).
   */
  ghost predicate ActiveInList(projects: seq<Project>, active: Option<Project>)
  {
    && (active.Some? ==> active.value in projects)
    && (|projects| > 0 ==> active.Some?)
  }

  class ProjectStore {
    var projects: seq<Project>
    var loading: bool
    var error: Option<ErrorInfo>
    /** The shared active-project holder this store re-points. */
    const holder: ActiveProjectStore
    /** The project-service calls issued so far, oldest first. */
    ghost var requests: seq<ProjectRequest>

    /** The module-level initial state, sharing `holder`. */
    constructor (holder: ActiveProjectStore)
      ensures this.holder == holder
      ensures projects == [] && !loading && error == None && requests == []
    {
      this.holder := holder;
      projects, loading, error := [], false, None;
      requests := [];
    }

    ghost predicate Consistent()
      reads this, holder
    {
      ActiveInList(projects, holder.activeProject)
    }

    /**
     * `fetchProjects`: replace the list (null data reads as []); pick the
     * first project only when nothing is active yet.
     */
    method FetchProjects(reply: Reply<seq<Project>>)
      modifies this, holder
      ensures requests == old(requests) + [FetchProjectsRequest]
      ensures !loading
      ensures reply.error.Some? ==>
        && error == reply.error && projects == old(projects)
        && holder.activeProject == old(holder.activeProject)
      ensures reply.error.None? ==>
        && error == None
        && projects == reply.data.GetOr([])
        && holder.activeProject ==
             if old(holder.activeProject).None? && |projects| > 0 then Some(projects[0])
             else old(holder.activeProject)
      ensures reply.error.None? && old(holder.activeProject).None? ==> Consistent()
      ensures reply.error.Some? ==> (Consistent() <==> old(Consistent()))
    {
      loading := true;
      error := None;
      requests := requests + [FetchProjectsRequest];
      loading := false;
      if reply.error.Some? {
        error := reply.error;
        return;
      }
      projects := reply.data.GetOr([]);
      if holder.activeProject.None? && |projects| > 0 {
        holder.SetActiveProject(projects[0]);
      }
    }

    /** `createProject`: prepend the stored record and make it active. */
    method CreateProject(name: string, reply: Reply<Project>) returns (ok: bool)
      modifies this, holder
      ensures requests == old(requests) + [CreateProjectRequest(name)]
      ensures !loading
      ensures reply.error.Some? ==>
        && !ok && error == reply.error && projects == old(projects)
        && holder.activeProject == old(holder.activeProject)
      ensures reply.error.None? && reply.data.Some? ==>
        && ok && error == None
        && projects == [reply.data.value] + old(projects)
        && holder.activeProject == reply.data
      ensures reply.error.None? && reply.data.None? ==>
        && ok && error == None && projects == old(projects)
        && holder.activeProject == old(holder.activeProject)
      ensures old(Consistent()) ==> Consistent()
    {
      loading := true;
      error := None;
      requests := requests + [CreateProjectRequest(name)];
      loading := false;
      if reply.error.Some? {
        error := reply.error;
        return false;
      }
      if reply.data.Some? {
        projects := [reply.data.value] + projects;
        holder.SetActiveProject(reply.data.value);
      }
      return true;
    }

    /**
     * `updateProject`: replace the first project with `id` in place, and
     * the active project when its id is `id`.
     */
    method UpdateProject(id: string, name: string, reply: Reply<Project>) returns (ok: bool)
      modifies this, holder
      ensures requests == old(requests) + [UpdateProjectRequest(id, name)]
      ensures !loading
      ensures reply.error.Some? ==>
        && !ok && error == reply.error && projects == old(projects)
        && holder.activeProject == old(holder.activeProject)
      ensures reply.error.None? && reply.data.Some? ==>
        && ok && error == None
        && projects == ReplaceFirst(old(projects), ProjectId, id, reply.data.value)
        && holder.activeProject ==
             if old(holder.activeProject).Some? && old(holder.activeProject).value.id == id
             then reply.data else old(holder.activeProject)
      ensures reply.error.None? && reply.data.None? ==>
        && ok && error == None && projects == old(projects)
        && holder.activeProject == old(holder.activeProject)
      ensures old(Consistent()) ==> Consistent()
    {
      loading := true;
      error := None;
      requests := requests + [UpdateProjectRequest(id, name)];
      loading := false;
      if reply.error.Some? {
        error := reply.error;
        return false;
      }
      if reply.data.Some? {
        ghost var before := projects;
        var index := FindIndex(projects, ProjectId, id);
        if index != -1 {
          projects := projects[index := reply.data.value];
        }
        if holder.activeProject.Some? && holder.activeProject.value.id == id {
          holder.SetActiveProject(reply.data.value);
        }
        if ActiveInList(before, old(holder.activeProject)) {
          UpdateKeepsActiveInList(before, old(holder.activeProject), id, reply.data.value);
        }
      }
      return true;
    }

    /**
     * `deleteProject`: keep the projects whose id is not `id`; if the active
     * project had that id, the new first project becomes active, or none.
     */
    method DeleteProject(id: string, reply: Reply<()>) returns (ok: bool)
      modifies this, holder
      ensures requests == old(requests) + [DeleteProjectRequest(id)]
      ensures !loading
      ensures reply.error.Some? ==>
        && !ok && error == reply.error && projects == old(projects)
        && holder.activeProject == old(holder.activeProject)
      ensures reply.error.None? ==>
        && ok && error == None
        && projects == Without(old(projects), ProjectId, id)
        && holder.activeProject ==
             if old(holder.activeProject).Some? && old(holder.activeProject).value.id == id
             then (if |projects| > 0 then Some(projects[0]) else None)
             else old(holder.activeProject)
      ensures old(Consistent()) ==> Consistent()
    {
      loading := true;
      error := None;
      requests := requests + [DeleteProjectRequest(id)];
      loading := false;
      if reply.error.Some? {
        error := reply.error;
        return false;
      }
      ghost var before := projects;
      projects := Without(projects, ProjectId, id);
      if holder.activeProject.Some? && holder.activeProject.value.id == id {
        if |projects| > 0 {
          holder.SetActiveProject(projects[0]);
        } else {
          holder.ClearActiveProject();
        }
      }
      if ActiveInList(before, old(holder.activeProject)) {
        DeleteKeepsActiveInList(before, old(holder.activeProject), id);
      }
      return true;
    }

    /** `selectProject(p)`: only the active project changes, to `p`. */
    method SelectProject(project: Project)
      modifies holder
      ensures holder.activeProject == Some(project)
      ensures project in projects ==> Consistent()
    {
      holder.SetActiveProject(project);
    }
  }

  /** An update keeps the active project in the list (the reasoning behind `UpdateProject`). */
  lemma UpdateKeepsActiveInList(s: seq<Project>, active: Option<Project>, id: string, updated: Project)
    requires ActiveInList(s, active)
    ensures ActiveInList(
      ReplaceFirst(s, ProjectId, id, updated),
      if active.Some? && active.value.id == id then Some(updated) else active)
  {
    var r := ReplaceFirst(s, ProjectId, id, updated);
    if active.Some? {
      var j :| 0 <= j < |s| && s[j] == active.value;
      if active.value.id == id {
        var i := FindIndex(s, ProjectId, id);
        assert r == s[i := updated];
        assert r[i] == updated;
      } else {
        var i := FindIndex(s, ProjectId, id);
        if i != -1 {
          assert r == s[i := updated];
          assert i != j;
          assert r[j] == active.value;
        }
      }
    }
  }

  /** A delete keeps the active project in the list (the reasoning behind `DeleteProject`). */
  lemma DeleteKeepsActiveInList(s: seq<Project>, active: Option<Project>, id: string)
    requires ActiveInList(s, active)
    ensures var r := Without(s, ProjectId, id);
      ActiveInList(r,
        if active.Some? && active.value.id == id
        then (if |r| > 0 then Some(r[0]) else None)
        else active)
  {
  }
}

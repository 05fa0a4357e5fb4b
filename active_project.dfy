/**
 * The active-project holder: one shared, mutable reference to the project
 * in focus, or null. It accepts any project and calls nothing.
 */
module ActiveProject {
  import opened Remote
  import opened ProjectTypes

  class ActiveProjectStore {
    var activeProject: Option<Project>

    /** The module-level initial state: nothing is active. */
    constructor ()
      ensures activeProject == None
    {
      activeProject := None;
    }

    /** `setActiveProject(p)`: the active project is `p`, whatever it was. */
    method SetActiveProject(project: Project)
      modifies this
      ensures activeProject == Some(project)
    {
      activeProject := Some(project);
    }

    /**
     * `clearActiveProject()`: the active project is null. The new state
     * does not depend on the old one, so clearing twice is clearing once.
     */
    method ClearActiveProject()
      modifies this
      ensures activeProject == None
    {
      activeProject := None;
    }
  }
}

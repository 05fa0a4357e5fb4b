/** The project record, shared by the project store and the active-project holder. */
module ProjectTypes {

  /** A project record as the service returns it. */
  datatype Project = Project(id: string, userId: string, name: string, createdAt: string)

  function ProjectId(p: Project): string { p.id }
}

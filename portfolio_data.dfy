/**
 * The content types the core reads: projects and skills. Optional fields
 * of the content configuration are `Option`s; numbers are reals.
 */
module PortfolioData {
  import opened Options

  datatype SkillLevel = Beginner | Intermediate | Advanced | Expert

  datatype SkillCategory = Language | Framework | Tool | Backend | Devops | Ai | Learning

  datatype Skill = Skill(
    name: string,
    category: SkillCategory,
    level: SkillLevel,
    years: Option<real>,
    projectsCount: Option<real>)

  datatype Project = Project(
    id: string,
    name: string,
    shortDescription: string,
    longDescription: string,
    techStack: seq<string>,
    role: string,
    liveUrl: Option<string>,
    repoUrl: Option<string>,
    metrics: Option<seq<string>>,
    featured: Option<bool>)

  /** JavaScript truthiness of the optional `featured` flag: only `true` counts. */
  predicate IsFeatured(p: Project) {
    p.featured == Some(true)
  }

  predicate NotFeatured(p: Project) {
    !IsFeatured(p)
  }
}

/**
 * The projects page: one highlighted featured project, a grid of the
 * others, and the project shown in the modal.
 */
module ProjectsPage {
  import opened Options
  import opened Lists
  import opened PortfolioData

  /** `projects.find(p => p.featured)`. */
  function FeaturedProject(projects: seq<Project>): (r: Option<Project>)
    ensures r.None? <==> forall i :: 0 <= i < |projects| ==> !IsFeatured(projects[i])
    ensures r.Some? ==> IsFeatured(r.value)
    ensures r.Some? ==> exists i :: 0 <= i < |projects| && projects[i] == r.value && forall j :: 0 <= j < i ==> !IsFeatured(projects[j])
  {
    Find(projects, IsFeatured)
  }

  /** `projects.filter(p => !p.featured)`. */
  function OtherProjects(projects: seq<Project>): (r: seq<Project>)
    ensures forall i :: 0 <= i < |r| ==> NotFeatured(r[i]) && r[i] in projects
    ensures forall i :: 0 <= i < |projects| && NotFeatured(projects[i]) ==> projects[i] in r
  {
    Filter(projects, NotFeatured)
  }

  /** The grid holds exactly the non-featured projects. */
  lemma OtherProjectsExactly(projects: seq<Project>, p: Project)
    ensures p in OtherProjects(projects) <==> p in projects && NotFeatured(p)
  {
    var r := OtherProjects(projects);
    if p in r {
      var i :| 0 <= i < |r| && r[i] == p;
    }
    if p in projects && NotFeatured(p) {
      var i :| 0 <= i < |projects| && projects[i] == p;
    }
  }

  /**
   * The highlighted project is not repeated in the grid, and a featured
   * project after the first one is shown nowhere on the page.
   */
  lemma FeaturedSplit(projects: seq<Project>, k: nat)
    requires k < |projects| && IsFeatured(projects[k])
    ensures FeaturedProject(projects).Some?
    ensures FeaturedProject(projects).value !in OtherProjects(projects)
    ensures projects[k] != FeaturedProject(projects).value ==>
              projects[k] !in OtherProjects(projects) && Some(projects[k]) != FeaturedProject(projects)
  {
    OtherProjectsExactly(projects, FeaturedProject(projects).value);
    OtherProjectsExactly(projects, projects[k]);
  }

  /** The state cell `selectedProject`: what the modal shows, if anything. */
  class Page {
    var selected: Option<Project>

    constructor ()
      ensures selected == None
    {
      selected := None;
    }

    /** A click on a card (the featured one or one in the grid). */
    method OpenCard(p: Project)
      modifies this
      ensures selected == Some(p)
    {
      selected := Some(p);
    }

    /** The modal's close handler. */
    method CloseModal()
      modifies this
      ensures selected == None
    {
      selected := None;
    }
  }
}

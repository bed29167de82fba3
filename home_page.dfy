/**
 * The home page: the "Featured Work" preview, picked from the project list,
 * and the guard that starts a route transition when a preview is clicked.
 */
module HomePage {
  import opened Lists
  import opened PortfolioData
  import opened RouteTransition

  /** `projects.filter(p => p.featured).slice(0, 2)`. */
  function FeaturedProjects(projects: seq<Project>): (r: seq<Project>)
    ensures |r| <= 2
    ensures |Filter(projects, IsFeatured)| >= 2 ==> |r| == 2
    ensures forall i :: 0 <= i < |r| ==> IsFeatured(r[i]) && r[i] in projects
  {
    var f := Filter(projects, IsFeatured);
    SliceFromStart(f, 2);
    Slice(f, 0, 2)
  }

  /** `projects.filter(p => !p.featured).slice(0, 2)`. */
  function SecondaryProjects(projects: seq<Project>): (r: seq<Project>)
    ensures |r| <= 2
    ensures |Filter(projects, NotFeatured)| >= 2 ==> |r| == 2
    ensures forall i :: 0 <= i < |r| ==> NotFeatured(r[i]) && r[i] in projects
  {
    var n := Filter(projects, NotFeatured);
    SliceFromStart(n, 2);
    Slice(n, 0, 2)
  }

  /** The cards of the preview: the featured ones, then the secondary ones. */
  function Preview(projects: seq<Project>): (r: seq<Project>)
    ensures |r| <= 4
    ensures forall i :: 0 <= i < |r| ==> r[i] in projects
    ensures forall i, j :: 0 <= i < j < |r| && NotFeatured(r[i]) ==> NotFeatured(r[j])
  {
    FeaturedProjects(projects) + SecondaryProjects(projects)
  }

  /**
   * The featured preview is the leading two (or fewer, when there are fewer)
   * featured projects in list order, and the secondary preview the leading
   * two non-featured ones.
   */
  lemma PreviewSelection(projects: seq<Project>)
    ensures var f := Filter(projects, IsFeatured);
            FeaturedProjects(projects) == f[..if |f| < 2 then |f| else 2]
    ensures var n := Filter(projects, NotFeatured);
            SecondaryProjects(projects) == n[..if |n| < 2 then |n| else 2]
  {
    SliceFromStart(Filter(projects, IsFeatured), 2);
    SliceFromStart(Filter(projects, NotFeatured), 2);
  }

  /**
   * No project is in both halves of the preview, and when the list has at
   * least two of each kind the preview holds exactly four cards.
   */
  lemma PreviewShape(projects: seq<Project>)
    ensures forall p :: p in FeaturedProjects(projects) ==> p !in SecondaryProjects(projects)
    ensures |Filter(projects, IsFeatured)| >= 2 && |Filter(projects, NotFeatured)| >= 2 ==> |Preview(projects)| == 4
  {
    PreviewSelection(projects);
    forall p | p in FeaturedProjects(projects)
      ensures p !in SecondaryProjects(projects)
    {
      var i :| 0 <= i < |FeaturedProjects(projects)| && FeaturedProjects(projects)[i] == p;
      assert IsFeatured(p);
    }
  }

  /** The route-transition context the page reads and writes. */
  class Navigator {
    var state: RouteState

    constructor (pathname: string)
      ensures state == Initial(pathname)
    {
      state := Initial(pathname);
    }

    /**
     * `handleNavigate(path)`: ignored while a transition runs; otherwise it
     * starts the transition to `path`. Either way a transition is running
     * afterwards, so a second click before it ends does nothing.
     */
    method HandleNavigate(path: string)
      modifies this
      ensures old(state.isTransitioning) ==> state == old(state)
      ensures !old(state.isTransitioning) ==> state == StartTransition(old(state), path)
      ensures state.isTransitioning
    {
      if state.isTransitioning {
        return;
      }
      state := StartTransition(state, path);
    }
  }
}

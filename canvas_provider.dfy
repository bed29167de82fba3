/**
 * The canvas provider: which background scene is current, whether the
 * canvas has loaded, and the effect that follows the route-transition
 * state to pick the scene.
 */
module CanvasProvider {
  import RouteTransition

  datatype Scene = Hero | About | Projects | Contact

  /** The route-to-scene table with its `"hero"` fallback. */
  function RouteToScene(route: string): (s: Scene)
    ensures route == "/about" ==> s == About
    ensures route == "/projects" ==> s == Projects
    ensures route == "/contact" ==> s == Contact
    ensures route !in {"/about", "/projects", "/contact"} ==> s == Hero
  {
    if route == "/" then Hero
    else if route == "/about" then About
    else if route == "/projects" then Projects
    else if route == "/contact" then Contact
    else Hero
  }

  /**
   * The scene after the scene-update effect has run: while a transition is
   * in progress the scene stays put, otherwise it is the destination's scene.
   */
  function SceneAfterEffect(current: Scene, toRoute: string, isTransitioning: bool): (s: Scene)
    ensures isTransitioning ==> s == current
    ensures !isTransitioning ==> s == RouteToScene(toRoute)
  {
    var newScene := RouteToScene(toRoute);
    if newScene != current && !isTransitioning then newScene else current
  }

  /** The effect reaches its fixed point in one run. */
  lemma SceneEffectIdempotent(current: Scene, toRoute: string, isTransitioning: bool)
    ensures var once := SceneAfterEffect(current, toRoute, isTransitioning);
            SceneAfterEffect(once, toRoute, isTransitioning) == once
  {
  }

  /** When a transition ends, the effect shows the scene of the route the transition went to. */
  lemma SceneFollowsEndedTransition(current: Scene, s: RouteTransition.RouteState)
    ensures var e := RouteTransition.EndTransition(s);
            SceneAfterEffect(current, e.toRoute, e.isTransitioning) == RouteToScene(s.toRoute)
  {
  }

  class Canvas {
    var currentScene: Scene
    var isLoaded: bool

    constructor ()
      ensures currentScene == Hero && !isLoaded
    {
      currentScene := Hero;
      isLoaded := false;
    }

    method SetLoaded(loaded: bool)
      modifies this
      ensures isLoaded == loaded && currentScene == old(currentScene)
    {
      isLoaded := loaded;
    }

    /** Sets the scene unconditionally, also in the middle of a transition. */
    method SwitchScene(scene: Scene)
      modifies this
      ensures currentScene == scene && isLoaded == old(isLoaded)
    {
      currentScene := scene;
    }

    /** The scene-update effect, run with the transition state it depends on. */
    method SceneEffect(toRoute: string, isTransitioning: bool)
      modifies this
      ensures currentScene == SceneAfterEffect(old(currentScene), toRoute, isTransitioning)
      ensures isLoaded == old(isLoaded)
    {
      var newScene := RouteToScene(toRoute);
      if newScene != currentScene && !isTransitioning {
        currentScene := newScene;
      }
    }
  }
}

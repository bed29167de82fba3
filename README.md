# Portfolio site core, modelled in Dafny

This project models the rule-carrying core of a Next.js portfolio site and proves properties of it. The site renders a three.js background behind four pages (home, about, projects, contact). The model covers these parts:

- **Camera rig** (`CameraRig`): route → camera table with a `"/"` fallback; a Catmull–Rom segment; control points that arc the path 2 units up; a spring-damped transition progress with a velocity clamp and a snap at 0.98; smoothstep easing; and the per-frame update of the camera's position and field of view.
  - `Rig` is a class whose fields are the component's refs and the camera values it writes.
- **Route transitions** (`RouteTransition`): the `{isTransitioning, fromRoute, toRoute, direction}` record and its three rewrites.
- **Canvas scene selector** (`CanvasProvider`): route → scene table with a `"hero"` fallback; the effect that applies it only outside transitions; the two setters.
- **Cursor force field** (`CursorField`): pointer events → device coordinates, a finite-difference velocity and a stored record; the clamped force a surface point feels.
- **Scramble text** (`ScrambleText`): the per-frame loop that builds a revealed prefix followed by random filler; the reveal count; the visibility and trigger state; what the span shows.
- **List rules**:
  - `ProjectCard`: AI/infrastructure chips, the overflow chip, the primary metric, the footer markers;
  - `SkillsGrid`: category tabs, the level bar table, the years and projects labels;
  - `HomePage`: the preview selection and the navigation guard;
  - `ProjectsPage`: the featured/other split and the modal selection.

Shared modules:

- `Options`: an Option datatype.
- `Vectors`: real 2- and 3-vectors with the library's `lerp`.
- `Lists`: JavaScript `filter`, `some`, `find` and `slice`, including slice's negative ends.
- `PortfolioData`: the `Project` and `Skill` content types.

Modelling conventions:

- Numbers are mathematical reals. Camera-table literals are integers, so the table uses `int` triples.
- Time, random draws, the picking ray, distances, normalised directions and vector lengths are parameters of the operation that uses them.

Source quirks modelled exactly as the code behaves:

- **Re-arm guard.** The guard compares the route with the previous position's `toString()`, such as `"0,2,10"`. That string contains no '/', while every route starts with '/', so the guard reduces to "not transitioning" (`RearmGuard`).
- **Re-arm endpoints.** A re-arm copies the *new* route's position into `previousPos` and its target into `previousTarget`. Both ends of each spline are then the destination, so the camera samples the destination raised by 2 at both ends (`RearmedEndpoints`, `CollapsedSpline`).
- **Spline ends.** The spline passes through its interior control points, not its ends (`CubicSpline`, `SnapSample`).
- **Negative slice end.** With more than four AI technologies, `infraTechs.slice(0, 4 - aiTechs.length)` has a negative end. It drops entries from the end instead of yielding none, so more than four chips show (`ManyAiChips`, `ManyAiChipsExample`).
- **`{x && …}` with x = 0.** JSX renders the number 0 as the text "0", so a years or projects count of 0 shows "0" (`YearsDisplay`, `ProjectsDisplay`).
- **Empty filler set.** An empty `chars` appends the text "undefined" per hidden position (`Filler`, `FrameEmptyChars`).
- **`!startTime`.** The test treats a first timestamp of 0 as "not started" (`Scrambler.Scramble`).

Further facts about the rig's code that the model keeps:

- a re-arm copies the new route's position and target into `previousPos`/`previousTarget`;
- the rig has no guard on the frame time Δt and no watchdog that ends a stuck transition;
- the spline passes through p1 and p2, its interior control points.

## Model

| member | source | states |
|---|---|---|
| CameraRig.CameraStateFor | src/components/canvas/camera-rig.tsx:36 | the lookup always yields one of the four table entries, and the `"/"` entry exactly for routes other than "/about", "/projects" and "/contact" |
| CameraRig.CameraStateLookup | src/components/canvas/camera-rig.tsx:14-36 | the four table routes get their own entries; any other pathname gets the `"/"` entry |
| CameraRig.PositionStringHasNoSlash | src/components/canvas/camera-rig.tsx:63 | `position.toString()` of every table position (comma-joined integers) contains no '/' |
| CameraRig.RearmGuard | src/components/canvas/camera-rig.tsx:63 | the guard never holds during a transition, and for every route containing '/' it holds exactly when no transition is running |
| CameraRig.CatmullRom | src/components/canvas/camera-rig.tsx:21-30 | one component of the segment equals p1 at t = 0 and p2 at t = 1 |
| CameraRig.CubicSpline | src/components/canvas/camera-rig.tsx:21-30 | the curve passes through the interior control points: p1 at t = 0, p2 at t = 1 |
| CameraRig.GenerateControlPoints | src/components/canvas/camera-rig.tsx:49-57 | the ends are start and end; the interior points sit at 1/4 and 3/4 of the way from start to end, each 2 higher on y  |
| CameraRig.ControlPointsAsVectorOps | src/components/canvas/camera-rig.tsx:50-54 | the same points equal the source's chain: (end point + midpoint lerp) × 0.5 + (0, 2, 0) |
| CameraRig.CollapsedSpline | src/components/canvas/camera-rig.tsx:96-108 | with start = end = e, the sample is e raised by 2 + t − t² on y, so between 2 and 2.25 above e on [0, 1] |
| CameraRig.RearmedEndpoints | src/components/canvas/camera-rig.tsx:65-72 | after a re-arm the spline samples the target raised by 2 on y at both t = 0 and t = 1 |
| CameraRig.SnapSample | src/components/canvas/camera-rig.tsx:86-96 | at the snap (progress 1) the camera sits on p2, three quarters of the way and 2 above, not on the end point |
| CameraRig.Smoothstep | src/components/canvas/camera-rig.tsx:94 | maps 0 to 0 and 1 to 1, and maps [0, 1] into [0, 1] |
| CameraRig.SmoothstepMonotone | src/components/canvas/camera-rig.tsx:94 | smoothstep is non-decreasing on [0, 1] |
| CameraRig.StepVelocity | src/components/canvas/camera-rig.tsx:79-83 | the new velocity lies in [−2, 2] equals the unclamped spring integration whenever that lies in [−2, 2], and is exactly 2 or −2 when the integration leaves the range above or below |
| CameraRig.SpringStep | src/components/canvas/camera-rig.tsx:79-90 | velocity in [−2, 2]; reaching ≥ 0.98 snaps to progress 1, velocity 0, not active; otherwise stays active with progress < 0.98 |
| CameraRig.RunSpring | src/components/canvas/camera-rig.tsx:76-90 | n frames at a fixed Δt: a spring at rest stays at rest; a still-moving result is the start or below 0.98; after a real frame the velocity lies in [−2, 2]; a spring that came to rest has progress 1 and velocity 0 |
| CameraRig.ForwardVelocity | src/components/canvas/camera-rig.tsx:79-83 | from progress in [0, 0.98) and velocity in [0, 2], a frame of at most 0.5 s gives a velocity of at least 0.06·Δt |
| CameraRig.StepAdvances | src/components/canvas/camera-rig.tsx:79-90 | such a frame either snaps, or stays forward and advances the progress by at least 0.06·Δt² |
| CameraRig.SpringSettles | src/components/canvas/camera-rig.tsx:76-90 | at a fixed frame time 0 < Δt ≤ 0.5, a forward spring is at rest with progress 1 after any n frames with n·0.06·Δt² ≥ 0.98 − progress |
| CameraRig.Rig.constructor | src/components/canvas/camera-rig.tsx:36-60 | the refs as first created: previous state `"/"`, progress and velocity 0, not transitioning, splines from the `"/"` entry to the current one |
| CameraRig.Rig.Render | src/components/canvas/camera-rig.tsx:62-73 | recomputes the current entry; when the guard holds, performs the re-arm below; otherwise leaves every ref unchanged |
| CameraRig.Rig.Rearm | src/components/canvas/camera-rig.tsx:64-72 | previous state := current; previousPos/previousTarget := the new entry's position/target; progress, velocity := 0; transitioning; each spline starts and ends at the new entry's point |
| CameraRig.Rig.Frame | src/components/canvas/camera-rig.tsx:75-125 | while transitioning: the spring fields become `SpringStep` of the old ones, the camera sits on the position spline at smoothstep(progress), lookAt is the target spline there; otherwise: position lerps toward the entry by 2Δt and lookAt is the entry's target; the FOV lerps by 2Δt for a perspective camera and is kept otherwise; after a transitioning frame the velocity lies in [−2, 2] |
| Vectors.Toward | src/components/canvas/camera-rig.tsx:114 | `a + (b − a)·α` lies between a and b for α in [0, 1], equals a at α = 0 and b at α = 1, and fixes a = b |
| Vectors.VLerp | src/components/canvas/camera-rig.tsx:114 | `Vector3.lerp` moves every component by `Toward`, so each stays between the two points for α in [0, 1] and a point is fixed when it equals the target |
| Vectors.Lerp | src/components/canvas/camera-rig.tsx:122 | `MathUtils.lerp` `(1 − t)x + ty` equals `Toward(x, y, t)`, lies between x and y for t in [0, 1], and leaves fov = target fixed |
| RouteTransition.Initial | src/hooks/use-route-transition.tsx:28-33 | not transitioning, from = to = the initial pathname, direction forward |
| RouteTransition.StartTransition | src/hooks/use-route-transition.tsx:35-43 | transitioning, to = the argument, from = the previous destination, direction forward |
| RouteTransition.EndTransition | src/hooks/use-route-transition.tsx:45-52 | not transitioning, from = to = the previous destination, direction unchanged |
| RouteTransition.SyncPathname | src/hooks/use-route-transition.tsx:54-62 | no change while transitioning or when the pathname is the destination; otherwise from := old destination, to := pathname, flag and direction unchanged |
| RouteTransition.EndTransitionIdempotent | src/hooks/use-route-transition.tsx:45-52 | ending twice equals ending once |
| RouteTransition.SyncPathnameIdempotent | src/hooks/use-route-transition.tsx:54-62 | an immediate re-run of the sync effect changes nothing |
| RouteTransition.InitialIsSynced | src/hooks/use-route-transition.tsx:28-62 | at mount the sync effect does nothing |
| RouteTransition.StartSyncEnd | src/hooks/use-route-transition.tsx:35-62 | while a started transition runs, no pathname change touches the state; ending it gives an idle state at the destination that the sync leaves alone |
| CanvasProvider.RouteToScene | src/providers/canvas-provider.tsx:34-41 | the three named routes map to their scenes, and every other route to "hero" |
| CanvasProvider.SceneAfterEffect | src/providers/canvas-provider.tsx:41-45 | while transitioning the scene stays; otherwise it becomes the destination's scene |
| CanvasProvider.SceneEffectIdempotent | src/providers/canvas-provider.tsx:41-46 | re-running the effect is a no-op |
| CanvasProvider.SceneFollowsEndedTransition | src/providers/canvas-provider.tsx:41-45 | once a transition ends, the effect shows the transition's destination scene |
| CanvasProvider.Canvas.constructor | src/providers/canvas-provider.tsx:20-21 | scene "hero", not loaded |
| CanvasProvider.Canvas.SetLoaded | src/providers/canvas-provider.tsx:24-26 | isLoaded := the argument, scene unchanged |
| CanvasProvider.Canvas.SwitchScene | src/providers/canvas-provider.tsx:28-30 | scene := the argument unconditionally, isLoaded unchanged |
| CanvasProvider.Canvas.SceneEffect | src/providers/canvas-provider.tsx:32-46 | the new scene is `SceneAfterEffect` of the old one |
| CursorField.CursorFieldEngine.constructor | src/lib/cursor-field.ts:27-42 | mouse, previous mouse, time and the whole record zero; not pressed |
| CursorField.NdcX | src/lib/cursor-field.ts:51 | the device x recovers the client x: `left + (x + 1)/2 · width = clientX` |
| CursorField.NdcY | src/lib/cursor-field.ts:52 | the device y recovers the client y with the axis flipped: `top + (1 − y)/2 · height = clientY` |
| CursorField.NdcInRange | src/lib/cursor-field.ts:51-52 | points inside a positive rectangle land in [−1, 1]²; left edge −1, right edge 1, top edge 1, bottom edge −1 |
| CursorField.NextVelocity | src/lib/cursor-field.ts:55-58 | when Δt > 0 the velocity times Δt is the displacement; otherwise the old velocity is kept |
| CursorField.StillPointerHasNoVelocity | src/lib/cursor-field.ts:55-58 | a pointer that has not moved gets zero velocity |
| CursorField.CursorFieldEngine.Update | src/lib/cursor-field.ts:44-71 | time := now; mouse := the device point; velocity := `NextVelocity` over the elapsed seconds; the record stores the point, the ray, the button and the time; previous mouse := mouse |
| CursorField.Strength | src/lib/cursor-field.ts:86-104 | the denominator d² + 0.1 is positive; the strength is at most 5, non-negative for a non-negative coefficient, and either 5 or coef/(d² + 0.1); it is 5 as soon as coef/(d² + 0.1) reaches 5, and exactly coef/(d² + 0.1) below that |
| CursorField.StrengthDecreasesWithDistance | src/lib/cursor-field.ts:86-104 | for a non-negative coefficient, a nearer point never feels a weaker pull |
| CursorField.FieldAt | src/lib/cursor-field.ts:73-107 | beyond distance 10: zero position, strength 0, radius 0, attract; within: strength = `Strength`, radius = max(1, d), repel exactly when pressed, never shear, velocity bias on x and y only |
| CursorField.FieldBounded | src/lib/cursor-field.ts:77-107 | strength in [0, 5] for a non-negative coefficient; radius 0 exactly beyond distance 10 |
| CursorField.CursorFieldEngine.CalculateForceField | src/lib/cursor-field.ts:73-107 | for the stored record: beyond distance 10 strength 0, radius 0, attract; within, strength `Strength` and radius ≥ 1; repel exactly within range with the button pressed; strength in [0, 5] for a non-negative coefficient |
| CursorField.InteractionCoefficient | src/lib/cursor-field.ts:116-120 | every system coefficient lies in (0, 1] |
| CursorField.CoefficientOrder | src/lib/cursor-field.ts:116-120 | lattice (low) < rails (medium) < stream (high) |
| CursorField.FirstHitIsNearest | src/lib/cursor-field.ts:110-113 | over a hit list ordered nearest first, as the raycaster returns it, the result is absent exactly when nothing is hit, and otherwise is one of the hits at least as near as every hit |
| ScrambleText.DrawIndex | src/components/ui/scramble-text.tsx:83 | `floor(random · n)` is an index into a list of length n |
| ScrambleText.Filler | src/components/ui/scramble-text.tsx:83 | one character of `chars` when it is non-empty, the text "undefined" when it is empty |
| ScrambleText.Piece | src/components/ui/scramble-text.tsx:80-84 | below the reveal count the text's own character; with a non-empty `chars`, one character, drawn from `chars` from the count on |
| ScrambleText.FramePrefix | src/components/ui/scramble-text.tsx:78-85 | after n iterations, with a non-empty `chars`: n characters, the text's below the reveal count and characters of `chars` from it on |
| ScrambleText.Frame | src/components/ui/scramble-text.tsx:78-85 | with a non-empty `chars` a frame has the text's length, the text's characters below the reveal count, and characters of `chars` from it on |
| ScrambleText.BuildFrame | src/components/ui/scramble-text.tsx:78-85 | the loop's string equals `Frame`, the positionwise definition |
| ScrambleText.FrameFullyRevealed | src/components/ui/scramble-text.tsx:79-81 | a reveal count covering the text reproduces the text |
| ScrambleText.FrameEmptyChars | src/components/ui/scramble-text.tsx:79-83 | with an empty `chars` a frame is 9 characters longer per hidden position |
| ScrambleText.RevealCount | src/components/ui/scramble-text.tsx:74-76 | for progress < duration: non-negative for non-negative progress, at most 0 for negative progress, below the length of a non-empty text, 0 for an empty one |
| ScrambleText.RevealCountMonotone | src/components/ui/scramble-text.tsx:74-76 | more elapsed time never reveals fewer characters |
| ScrambleText.Rendered | src/components/ui/scramble-text.tsx:105 | the displayed text when non-empty; else the text when not visible; else empty |
| ScrambleText.FinishedRendersText | src/components/ui/scramble-text.tsx:105 | once the text is displayed, the span shows it exactly, visible or not |
| ScrambleText.RenderedIsTextOrFrame | src/components/ui/scramble-text.tsx:105 | the span shows the displayed text, the text, or nothing; nothing only when visible with nothing displayed, or when the text is empty |
| ScrambleText.Scrambler.constructor | src/components/ui/scramble-text.tsx:14-24 | the props are stored; nothing displayed, not visible, not triggered, no animation |
| ScrambleText.Scrambler.WithDefaults | src/components/ui/scramble-text.tsx:14-24 | the default props: the default filler set, a 3000 ms reveal, trigger-once; nothing displayed, not visible, not triggered, no animation |
| ScrambleText.Scrambler.Content | src/components/ui/scramble-text.tsx:105 | the span shows the displayed text when non-empty, else the text while hidden, else nothing |
| ScrambleText.Scrambler.Intersect | src/components/ui/scramble-text.tsx:30-39 | an intersecting entry that may trigger makes the span visible and triggered; a leaving entry hides a re-triggerable span; otherwise nothing changes |
| ScrambleText.Scrambler.AnimationEffect | src/components/ui/scramble-text.tsx:59-101 | hidden: a re-triggerable span clears its text, a trigger-once span keeps it, and no frame is pending; visible: the text is kept and a fresh animation is requested with the start time unset |
| ScrambleText.Scrambler.Scramble | src/components/ui/scramble-text.tsx:70-92 | the start time is set lazily on the first frame; before the duration the display is `Frame` at `RevealCount` and another frame is requested; after it the text itself, and the animation stops |
| ProjectCard.AiTechs | src/components/molecules/project-card.tsx:15-17 | the AI group holds only AI technologies of the stack, and every AI entry of the stack |
| ProjectCard.InfraTechs | src/components/molecules/project-card.tsx:18-20 | the infrastructure group holds only non-AI entries of the stack, and every non-AI entry |
| ProjectCard.ShownInfra | src/components/molecules/project-card.tsx:197 | the shown infrastructure chips are a leading part of the group; with at most four AI technologies there are min(group size, 4 − AI count) of them |
| ProjectCard.Chips | src/components/molecules/project-card.tsx:173-218 | every chip is a stack entry, and the chips are AI technologies exactly in the leading AI-group positions |
| ProjectCard.InAiTechs | src/components/molecules/project-card.tsx:15-17 | a stack entry is in the AI group exactly when it is one of the six AI technologies |
| ProjectCard.InfraIsNonAi | src/components/molecules/project-card.tsx:18-20 | "not in the AI group" filters the stack exactly as "not an AI technology" does |
| ProjectCard.TechPartition | src/components/molecules/project-card.tsx:15-20 | the groups together hold each stack entry as often as the stack does, and each entry lands in exactly one group |
| ProjectCard.HasRealTime | src/components/molecules/project-card.tsx:23-25 | true exactly when some entry is Socket.io, WebRTC, WebSocket or Apache Kafka |
| ProjectCard.PrimaryMetric | src/components/molecules/project-card.tsx:28-43 | the first metric whenever there is one (all three branches return it), none otherwise |
| ProjectCard.Overflow | src/components/molecules/project-card.tsx:221-231 | the `+n` chip appears exactly when the stack has more than four entries, and then n = length − 4 ≥ 1 |
| ProjectCard.ChipCounts | src/components/molecules/project-card.tsx:173-231 | with at most four AI technologies: min(length, 4) chips show, and chips plus overflow equal the length |
| ProjectCard.ManyAiChips | src/components/molecules/project-card.tsx:197 | with more than four AI technologies the negative slice end keeps all but the last `|ai| − 4` infrastructure entries, and more than four chips show |
| ProjectCard.ManyAiGroup | src/components/molecules/project-card.tsx:15-17 | for a stack of five AI technologies and two others, the AI group is the first five entries |
| ProjectCard.ManyAiChipsExample | src/components/molecules/project-card.tsx:173-231 | that card shows six chips, including its first infrastructure entry, beside a "+3" |
| ProjectCard.FooterOf | src/components/molecules/project-card.tsx:238-246 | metric only on non-softgame cards with a non-empty primary metric; Real-time as `HasRealTime`; ML exactly when some entry is an AI technology; live link only on softgame cards with a non-empty URL |
| SkillsGrid.TabIds | src/components/organisms/skills-grid.tsx:7-24 | the tab ids are exactly the categories other than "tool", and the initial category "language" is one of them |
| SkillsGrid.ClickTab | src/components/organisms/skills-grid.tsx:41 | clicking tab i makes its id active; the id is a tab id, never "tool" |
| SkillsGrid.FilteredSkills | src/components/organisms/skills-grid.tsx:26-28 | every listed skill has the active category and comes from the list; every skill of that category is listed |
| SkillsGrid.TabsCoverAllButTools | src/components/organisms/skills-grid.tsx:7-41 | under any tab, a skill is listed exactly when its category is that tab's id, so a "tool" skill never shows |
| SkillsGrid.LevelToPercentage | src/components/organisms/skills-grid.tsx:16-21 | every bar width lies in (0, 100] |
| SkillsGrid.PercentageStrictlyIncreasing | src/components/organisms/skills-grid.tsx:16-21 | a higher level has exactly a longer bar, in both directions |
| SkillsGrid.YearsDisplay | src/components/organisms/skills-grid.tsx:71-75 | the label shows exactly for a defined non-zero count, reading "years" exactly when the count exceeds 1, else "year"; a count of 0 renders "0" |
| SkillsGrid.ProjectsDisplay | src/components/organisms/skills-grid.tsx:85-89 | the line shows exactly for a defined non-zero count, with that count; a count of 0 renders "0" |
| HomePage.FeaturedProjects | src/app/page.tsx:74-76 | at most two cards, exactly two when two projects are featured; each is featured and from the list |
| HomePage.SecondaryProjects | src/app/page.tsx:77-79 | at most two cards, exactly two when two projects are not featured; each is not featured and from the list |
| HomePage.Preview | src/app/page.tsx:243 | at most four cards, all from the list, and no featured card after a non-featured one |
| HomePage.PreviewSelection | src/app/page.tsx:74-79 | the featured preview is the first ≤ 2 featured projects in order; the secondary preview is the first ≤ 2 others in order |
| HomePage.PreviewShape | src/app/page.tsx:74-79 | no project is in both halves, and there are exactly four cards when each kind has at least two |
| HomePage.Navigator.constructor | src/hooks/use-route-transition.tsx:28-33 | the context the page reads starts in `Initial(pathname)` |
| HomePage.Navigator.HandleNavigate | src/app/page.tsx:54-57 | ignored while transitioning; otherwise `StartTransition(path)`; a transition runs afterwards either way |
| ProjectsPage.FeaturedProject | src/app/projects/page.tsx:13 | none exactly when no project is featured; otherwise a featured project with no featured project before it |
| ProjectsPage.OtherProjects | src/app/projects/page.tsx:14 | every grid project is non-featured and from the list, and every non-featured project is in the grid |
| ProjectsPage.OtherProjectsExactly | src/app/projects/page.tsx:14 | the grid holds exactly the non-featured projects |
| ProjectsPage.FeaturedSplit | src/app/projects/page.tsx:13-14 | the highlighted project is not in the grid, and any other featured project appears in neither place |
| ProjectsPage.Page.constructor | src/app/projects/page.tsx:11 | nothing selected |
| ProjectsPage.Page.OpenCard | src/app/projects/page.tsx:39-59 | a card click selects that project |
| ProjectsPage.Page.CloseModal | src/app/projects/page.tsx:71 | closing the modal clears the selection |
| Lists.Filter | src/components/organisms/skills-grid.tsx:26-28 | `filter` keeps only elements of the list that satisfy the test, and all of them |
| Lists.FilterConcat | src/app/page.tsx:74-79 | filtering a concatenation concatenates the filtered parts, so order is kept |
| Lists.FilterPartition | src/components/molecules/project-card.tsx:15-20 | a test and its negation split a list into two parts holding every element as often as the list does |
| Lists.Any | src/components/molecules/project-card.tsx:23-25 | `some` is true exactly when some element satisfies the test |
| Lists.FirstIndex | src/app/projects/page.tsx:13 | the first index whose element satisfies the test, or none exactly when no element does |
| Lists.Find | src/app/projects/page.tsx:13 | `find` returns the first satisfying element, and none exactly when there is none |
| Lists.SliceIndex | src/components/molecules/project-card.tsx:197 | slice's relative-index rule of ECMA-262: max(len + i, 0) for a negative index, min(i, len) otherwise, so always within [0, len] |
| Lists.Slice | src/components/molecules/project-card.tsx:197 | `slice(start, end)` has length end′ − start′ for the normalised indices start′ < end′, else 0, and its k-th element is the list's element at start′ + k |
| Lists.SliceFromStart | src/components/molecules/project-card.tsx:197 | `slice(0, end)` keeps the first `end` elements for end ≥ 0 and all but the last −end for end < 0 |

## Left out

- ScrambleText.Frame, ScrambleText.BuildFrame, ScrambleText.RevealCount and ScrambleText.Filler: JavaScript strings are UTF-16 code-unit sequences, while the model's strings are sequences of Unicode scalar values. `text.length`, `text[i]` and `chars[k]` agree only for texts and filler sets that use the Basic Multilingual Plane, as the site's texts do; a character outside it is one element here and two code units there.
- CameraRig.CameraStateFor, CameraRig.CameraStateLookup and CanvasProvider.RouteToScene: a JavaScript object lookup also finds inherited properties such as `constructor`. The model sends every non-table key to the fallback; pathnames start with '/', so they never name such properties.
- IEEE double arithmetic: every number is a mathematical real, so rounding, NaN and infinities are not modelled.
- The three.js calls `camera.lookAt` and `updateProjectionMatrix`. `CameraRig.Rig.Frame` records the `lookAt` argument and the FOV, nothing more.
- The three.js raycaster, `distanceTo`, `normalize` and `velocity.length()`. The picking ray, the distance, the normalised direction and the speed are inputs of `CursorFieldEngine.Update`, `FieldAt` and `CalculateForceField`.
- `getRayIntersection` is modelled as `FirstHit` over the hit list the raycaster returns. The nearest-first order of that list is the raycaster's and is a hypothesis of `FirstHitIsNearest`.
- The time and randomness sources, which are parameters instead:
  - `performance.now()` is the `currentTime` parameter;
  - animation-frame timestamps are the `timestamp` parameter;
  - `Math.random()` draws are the `picks` list, one draw per position.
- `requestAnimationFrame` and `cancelAnimationFrame` scheduling is reduced to the `frameRequested` flag.
- ScrambleText.Scrambler.Intersect: the IntersectionObserver wiring, its threshold and margin are not modelled. The 100 ms delay before the visible/triggered update is collapsed into the callback.
- ScrambleText.Scrambler.Scramble requires a pending frame (`frameRequested`). It is the callback of a requested animation frame; a cancelled frame never runs.
- The `scrambleSpeed` prop is accepted by the component but never read, so the model has no counterpart.
- ScrambleText.Scrambler.Scramble and ScrambleText.RevealCount require a positive reveal duration, which every caller passes. With a non-positive one the source shows the text on the first frame, a case the model does not cover.
- CursorField.CursorFieldEngine.Update and CursorField.NdcX/NdcY require a canvas of non-zero width and height. A degenerate rectangle gives infinite or NaN coordinates in JavaScript.
- CameraRig.SpringSettles proves convergence only at a fixed frame time 0 < Δt ≤ 0.5 from a forward spring. Varying frame times are not covered.
- The idle camera follow has no convergence lemma. Only the one-step "between" property of `VLerp`/`Lerp` is stated.
- `project.year ?? new Date().getFullYear()` is left out. It reads the clock for a field the `Project` type does not declare.
- The home page's preview cards show `techStack.slice(0, 4)`. This is presentational: no count or overflow rule is attached to it.
- Animation and presentation code has no contract and is not modelled:
  - gsap and framer-motion tweens, including the home page fades and the `router.push` after the exit tween;
  - the custom cursor, magnetic navbar, page transition, preloader, Lenis smooth scrolling and the terrain background;
  - layouts, the modal, and the static content values of the portfolio data.

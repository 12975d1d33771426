# Portfolio scenes and project carousel

This project models the interactive core of a personal portfolio site, which
is built from React components. It has two parts.

- **The project carousel** (`components/projects.tsx`). One `index` into the
  list of projects moves with the Previous and Next buttons, the pagination
  dots and the five-second auto-slide. The index decides the strip's pixel
  offset, which three cards fill the viewport, and which dot is lit. Module
  `Carousel` holds this as pure functions with their lemmas. The React state
  is a class, `ProjectCarousel`, whose methods update `index`.
- **The six decorative three.js scenes** (`components/three-scene-*.tsx`). Each
  is a `useEffect` that works in five steps:
  1. It returns at once when the container element is missing.
  2. Otherwise it builds a scene of meshes, points and lines, each made from a
     freshly allocated geometry and material.
  3. It appends the renderer's canvas to the container.
  4. It registers a window `resize` handler.
  5. It returns a cleanup closure that unregisters the handler, removes the
     canvas when the container is still there, and removes and disposes the
     scene's objects.

  The model follows every effect and cleanup statement by statement against
  three stateful classes:
  - `Three.Ledger` records every geometry and material allocated and every
    `dispose()` call.
  - `Three.SceneGraph` records who is whose child.
  - `Dom.Page` records the container, its children and the resize listeners.

  The particle clouds, the contact globe's points, the skills line segments and
  the experience timeline write position buffers. The `Float32Array` buffers
  are `array<real>` filled by loops, in `Buffers` and in the scene modules.
  The skills `linePositions` and the contact `linesPositions` are JavaScript
  `number[]` arrays that the source pushes onto. The model builds them as
  `seq<real>` (`SkillsScene.LinePositions`, `ContactScene.LinkRandomPoints`).

Things the model cannot compute are passed in as parameters:
- `Math.random()` becomes a sequence of draws in [0, 1).
- The contact globe's surface placement (`Math.acos`, `Math.sin`, `Math.cos`) becomes a function parameter.
- `Math.PI * 2` becomes a parameter `tau`.

The central property is resource balance over one mount followed by its
cleanup. Every scene is meant to release each geometry and material it creates
exactly once. The about, projects, skills and contact scenes do. Two scenes do
not (see "## Findings"):
- The certifications scene never disposes the borders it hangs on each
  certificate.
- The experience scene never disposes the timeline geometry or the connecting
  lines, and leaves the lines in the scene.

The model follows the code. It proves that both scenes leak exactly those
resources, and it proves the corrected cleanups balanced (see "## Findings").

## Model

| member | source | states |
|---|---|---|
| Carousel.JsRemainder | components/projects.tsx:88-95 | JavaScript's `%` truncates toward zero: the result lies strictly between -n and n, takes the dividend's sign, and with the truncated quotient rebuilds the dividend |
| Carousel.Next | components/projects.tsx:93-95 | for an index in range the next index is in range: index + 1, or 0 after the last project |
| Carousel.Prev | components/projects.tsx:88-90 | for an index in range the previous index is in range: index - 1, or the last project before the first |
| Carousel.PrevDividendNonNegative | components/projects.tsx:89 | adding the length before taking `%` keeps the dividend non-negative, so Previous never yields a negative index |
| Carousel.PrevAfterNext | components/projects.tsx:88-95 | Previous undoes Next |
| Carousel.NextAfterPrev | components/projects.tsx:88-95 | Next undoes Previous |
| Carousel.Advance | components/projects.tsx:80-85 | any number of Next steps keeps the index in range |
| Carousel.AdvanceIsRemainder | components/projects.tsx:80-85 | k Next steps (clicks or auto-slide ticks) from i land on (i + k) mod n |
| Carousel.FullCycle | components/projects.tsx:80-85 | n auto-slide ticks bring the carousel back to where it started |
| Carousel.Doubled | components/projects.tsx:74 | the extended list holds twice as many cards as there are projects |
| Carousel.DoubledShowsRemainder | components/projects.tsx:74 | card k of the extended list shows project k mod n |
| Carousel.Offset | components/projects.tsx:98 | the strip's offset `-index * cardWidth` is never positive for a non-negative index |
| Carousel.CardVisibleIff | components/projects.tsx:69-70 | a card lies wholly inside the viewport of three card widths if and only if it is one of the three cards from index on |
| Carousel.Window | components/projects.tsx:69-74 | the viewport shows exactly three cards |
| Carousel.WindowWraps | components/projects.tsx:74-98 | the j-th visible card is project (index + j) mod n, so the carousel wraps from the last project to the first |
| Carousel.WindowInsideStrip | components/projects.tsx:69-74 | with at least two projects the three visible cards never run past the end of the doubled strip |
| Carousel.Dots | components/projects.tsx:213-219 | one pagination dot per project |
| Carousel.ExactlyOneDotLit | components/projects.tsx:213-219 | for an index in range exactly one dot is lit, and it is the index's own |
| Carousel.ProjectCarousel.constructor | components/projects.tsx:77 | the carousel starts at index 0 over the six projects |
| Carousel.ProjectCarousel.StripOffset | components/projects.tsx:98 | the strip's offset lies between -(n - 1) card widths and 0 |
| Carousel.ProjectCarousel.HandleNext | components/projects.tsx:93-95 | the Next button moves the index to Next of the old index and keeps it in range |
| Carousel.ProjectCarousel.HandlePrev | components/projects.tsx:88-90 | the Previous button moves the index to Prev of the old index and keeps it in range |
| Carousel.ProjectCarousel.GoTo | components/projects.tsx:213-219 | clicking dot i sets the index to i, and dot i is then the lit one |
| Carousel.ProjectCarousel.Tick | components/projects.tsx:80-85 | one firing of the auto-slide interval is a Next step |
| Three.Ledger.constructor | components/three-scene-about.tsx:9-10 | a mount starts with nothing allocated and nothing disposed |
| Three.Ledger.Allocate | components/three-scene-about.tsx:31-37 | a new geometry or material gets the next id, is distinct from every earlier one, and is appended to what was created |
| Three.Ledger.Dispose | components/three-scene-about.tsx:98-103 | a `dispose()` call is recorded once more, and nothing else changes |
| Three.SceneGraph.constructor | components/three-scene-about.tsx:13 | an empty scene graph |
| Three.SceneGraph.Create | components/three-scene-about.tsx:13 | a new object has a fresh id and no parent |
| Three.SceneGraph.Add | components/three-scene-about.tsx:52 | `scene.add(c)` makes c a child of the scene and changes no other parent |
| Three.SceneGraph.Remove | components/three-scene-about.tsx:97 | `scene.remove(c)` detaches c if it is a child of the scene; otherwise nothing changes |
| Three.SceneGraph.Children | components/three-scene-about.tsx:52-53 | n is a child of p if and only if p is n's parent |
| Three.ResourceBagIsResources | components/three-scene-about.tsx:96-104 | disposing each drawable's geometry and material in turn disposes the multiset of their resources |
| Three.BalancedIsExactlyOnce | components/three-scene-about.tsx:96-104 | when disposals match allocations, every created resource is disposed exactly once and nothing else is disposed |
| Three.LeftOverLeaks | components/three-scene-certifications.tsx:127-144 | when disposals plus a left-over bag equal what was created, the ledger leaks and every left-over resource was created and never disposed |
| Three.ChildrenAfterDetach | components/three-scene-about.tsx:96-97 | removing a set of nodes from p takes exactly those nodes out of p's children |
| Three.DetachAfterAttach | components/three-scene-about.tsx:96-97 | removing from a fresh scene the nodes that were added to it leaves exactly the other children |
| Dom.AddThenRemove | components/three-scene-about.tsx:88-92 | registering a fresh handler and then removing it restores the listener set |
| Dom.Page.constructor | components/three-scene-about.tsx:7 | a page with or without the container, and with no canvases and no listeners |
| Dom.Page.SetContainer | components/three-scene-about.tsx:7 | React sets or clears the ref and changes nothing else |
| Dom.Page.Fresh | components/three-scene-about.tsx:20 | a new canvas or closure differs from every canvas and listener already present |
| Dom.Page.AppendChild | components/three-scene-about.tsx:23 | the canvas joins the container's children, and only on a present container |
| Dom.Page.RemoveChild | components/three-scene-about.tsx:93-95 | the canvas leaves the container's children |
| Dom.Page.AddResizeListener | components/three-scene-about.tsx:88 | the handler joins the listener set |
| Dom.Page.RemoveResizeListener | components/three-scene-about.tsx:92 | the handler leaves the listener set, and nothing happens if it was absent |
| Buffers.Centered | components/three-scene-certifications.tsx:68-70 | `(Math.random() - 0.5) * spread` lies in [-spread/2, spread/2) |
| Buffers.SlotOfPoint | components/three-scene-certifications.tsx:67-70 | slot 3i + k holds coordinate k of point i |
| Buffers.FillParticles | components/three-scene-certifications.tsx:65-71 | every slot s of the buffer holds its draw centred on the spread of axis s mod 3, and each slot is written exactly once |
| Buffers.FillPoints | components/three-scene-contact.tsx:40-53 | slot s holds coordinate s mod 3 of point s / 3, and each slot is written exactly once |
| SceneSetup.Begin | components/three-scene-about.tsx:13-23 | a new scene with no parent, and the renderer's new canvas appended to the container; listeners untouched |
| SceneSetup.AddLights | components/three-scene-about.tsx:56-62 | an ambient and a point light, both new and both children of the scene, with no other parent changed |
| SceneSetup.ListenResize | components/three-scene-about.tsx:82-88 | a new handler joins the listeners; canvases and container untouched |
| SceneSetup.End | components/three-scene-about.tsx:91-95 | the handler leaves the listeners; the canvas leaves the container only when the container is still present |
| SceneSetup.Build | components/three-scene-about.tsx:31-38 | a geometry, then a material, then the object made from them: two resources appended to the ledger, nothing disposed |
| SceneSetup.BuildAndAdd | components/three-scene-about.tsx:31-52 | Build, then the object becomes a child of the scene |
| SceneSetup.BuildInto | components/three-scene-about.tsx:30-54 | one iteration of a construction loop extends the ledger and the scene's children by the new drawable |
| SceneSetup.BuildParticles | components/three-scene-certifications.tsx:61-83 | the particle cloud's geometry and material are allocated, its object is added to the scene, and its buffer holds the centred draws |
| SceneSetup.OnlyRestRemains | components/three-scene-about.tsx:91-105 | after the cleanup detaches the drawables, the scene keeps exactly the other children |
| SceneSetup.OnlyLightsAfterPair | components/three-scene-skills.tsx:110-121 | after the two drawables are removed, only the two lights remain in the scene |
| SceneSetup.OnlyLightsAfterTriple | components/three-scene-contact.tsx:127-141 | after the three drawables are removed, only the two lights remain in the scene |
| SceneSetup.DisposeOne | components/three-scene-about.tsx:97-103 | one object leaves the scene, and its geometry and material are each disposed once |
| SceneSetup.RemovePair | components/three-scene-skills.tsx:115-116 | two `scene.remove` calls detach both objects |
| SceneSetup.RemoveTriple | components/three-scene-contact.tsx:132-134 | three `scene.remove` calls detach all three objects |
| SceneSetup.DisposeDrawable | components/three-scene-about.tsx:98-103 | an object's geometry and material are each disposed once |
| SceneSetup.DisposeAll | components/three-scene-about.tsx:96-104 | the cleanup `forEach` detaches every drawable and disposes exactly the multiset of their resources |
| SceneSetup.DisposeEach | components/three-scene-certifications.tsx:134-139 | disposing each drawable's geometry and material adds exactly the multiset of their resources to the disposals |
| AboutScene.PaletteIndex | components/three-scene-about.tsx:28-33 | `Math.floor(r * colors.length)` indexes the four-colour palette |
| AboutScene.Colour | components/three-scene-about.tsx:28-33 | every cube's colour is one of the palette's |
| AboutScene.BuildCubes | components/three-scene-about.tsx:26-54 | twenty cubes, each with its own new geometry and material and the palette colour its draw selects, all children of the scene, with forty resources allocated in build order |
| AboutScene.Mount | components/three-scene-about.tsx:9-88 | no container: nothing changes; otherwise twenty cubes coloured by their draws and two lights in a new scene, a new canvas and a new resize handler |
| AboutScene.Cleanup | components/three-scene-about.tsx:91-105 | the handler is removed, the canvas leaves a present container, and every cube is detached with its resources disposed |
| AboutScene.Unmount | components/three-scene-about.tsx:91-105 | after a mount the cleanup disposes exactly the cubes' resources, restores the listeners, leaves only the lights, and leaves the canvas behind when the container is already gone |
| AboutScene.Lifecycle | components/three-scene-about.tsx:9-105 | one mount and its cleanup: every geometry and material (forty, or none without a container) is disposed exactly once, and the listeners are restored |
| ProjectsScene.GridBounds | components/three-scene-projects.tsx:41-42 | every hexagon falls in one of six rows and five columns |
| ProjectsScene.GridInverse | components/three-scene-projects.tsx:41-42 | the row and column give the hexagon's index back |
| ProjectsScene.GridInjective | components/three-scene-projects.tsx:41-42 | distinct hexagons occupy distinct cells |
| ProjectsScene.CentresDistinct | components/three-scene-projects.tsx:41-45 | no two hexagons are placed on the same point of the plane |
| ProjectsScene.PlaceHexagon | components/three-scene-projects.tsx:29-53 | one loop iteration places hexagon i at its grid centre, adds it to the scene and records its two resources |
| ProjectsScene.BuildHexagons | components/three-scene-projects.tsx:25-53 | thirty hexagons at the thirty grid centres, all children of the scene, with sixty resources allocated in build order |
| ProjectsScene.Mount | components/three-scene-projects.tsx:9-88 | no container: nothing changes; otherwise thirty hexagons and two lights in a new scene, a new canvas and a new resize handler |
| ProjectsScene.Cleanup | components/three-scene-projects.tsx:91-105 | the handler is removed, the canvas leaves a present container, and every hexagon is detached with its resources disposed |
| ProjectsScene.Unmount | components/three-scene-projects.tsx:91-105 | after a mount the cleanup disposes exactly the hexagons' resources, restores the listeners and leaves only the lights |
| ProjectsScene.Lifecycle | components/three-scene-projects.tsx:9-105 | one mount and its cleanup: every geometry and material (sixty, or none without a container) is disposed exactly once |
| SkillsScene.LinePositions | components/three-scene-skills.tsx:53-68 | the buffer holds the fifty segments' hundred ends, each coordinate a draw centred on the side of four |
| SkillsScene.SegmentEndsInCube | components/three-scene-skills.tsx:53-68 | the buffer describes a hundred points, every coordinate inside [-2, 2) |
| SkillsScene.AllocatedBag | components/three-scene-skills.tsx:44-50 | the material-before-geometry order of allocation is the same multiset the cleanup disposes |
| SkillsScene.BuildLines | components/three-scene-skills.tsx:44-75 | the lines' material and then geometry are allocated, the segments object joins the scene, and the buffer holds the centred draws |
| SkillsScene.Mount | components/three-scene-skills.tsx:9-107 | no container: nothing changes; otherwise the sphere of points, the segments and two lights in a new scene, a canvas and a resize handler; the segment buffer holds the centred draws |
| SkillsScene.Cleanup | components/three-scene-skills.tsx:110-121 | the handler is removed, the canvas leaves a present container, and both objects are detached with their four resources disposed |
| SkillsScene.Unmount | components/three-scene-skills.tsx:110-121 | after a mount the cleanup disposes exactly the four resources, restores the listeners and leaves only the lights |
| SkillsScene.Lifecycle | components/three-scene-skills.tsx:9-121 | one mount and its cleanup: every geometry and material (four, or none) is disposed exactly once |
| ContactScene.AcosArgumentInDomain | components/three-scene-contact.tsx:42-43 | every argument of `Math.acos` lies in [-1, 1) and the arguments rise with the point index |
| ContactScene.RandomIndex | components/three-scene-contact.tsx:72-73 | `Math.floor(Math.random() * pointsCount)` is a valid point index |
| ContactScene.LinkReadInBounds | components/three-scene-contact.tsx:75-82 | every coordinate the link loop reads lies inside `posArray` |
| ContactScene.LinkRandomPoints | components/three-scene-contact.tsx:71-83 | link i joins the two points chosen by draws 2i and 2i + 1, copied coordinate by coordinate from `posArray` |
| ContactScene.LinkSlots | components/three-scene-contact.tsx:75-82 | the six numbers of link i are the coordinates of its two endpoints in order |
| ContactScene.Spin.constructor | components/three-scene-contact.tsx:26-94 | the globe, points and lines start unrotated |
| ContactScene.Spin.Frame | components/three-scene-contact.tsx:108-110 | each frame turns all three objects by 0.002, so they keep turning together |
| ContactScene.BuildPoints | components/three-scene-contact.tsx:36-65 | point i's coordinates are the surface placement of `acos(-1 + 2i/200)`; the points object joins the scene |
| ContactScene.BuildLinks | components/three-scene-contact.tsx:67-94 | the links buffer holds the randomly chosen points' coordinates; the segments object joins the scene |
| ContactScene.ResourcesOfThree | components/three-scene-contact.tsx:26-94 | the globe's, the points' and the links' resources in build order |
| ContactScene.BuildObjects | components/three-scene-contact.tsx:26-94 | globe, points and links are new children of the scene, with their six resources allocated in order; `posArray` holds the surface placements and each link copies the points its draws select |
| ContactScene.Mount | components/three-scene-contact.tsx:9-124 | no container: nothing changes; otherwise the three objects and two lights in a new scene, a canvas and a resize handler; both buffers' contents as in BuildObjects |
| ContactScene.Cleanup | components/three-scene-contact.tsx:127-141 | the handler is removed, the canvas leaves a present container, and the three objects are detached with their six resources disposed |
| ContactScene.DisposeThree | components/three-scene-contact.tsx:135-140 | the six `dispose()` calls dispose exactly the three objects' resources |
| ContactScene.Unmount | components/three-scene-contact.tsx:127-141 | after a mount the cleanup disposes exactly the six resources, restores the listeners and leaves only the lights |
| ContactScene.Lifecycle | components/three-scene-contact.tsx:9-141 | one mount and its cleanup: every geometry and material (six, or none) is disposed exactly once |
| CertificationsScene.EvenlySpaced | components/three-scene-certifications.tsx:99 | at every moment the five certificates keep a fifth of a turn between neighbours and stay within one turn of certificate 0 |
| CertificationsScene.Pairs | components/three-scene-certifications.tsx:29-59 | one certificate and one border per iteration |
| CertificationsScene.PairsAt | components/three-scene-certifications.tsx:51-58 | certificate k is built at position 2k and its border right after it |
| CertificationsScene.PairsBag | components/three-scene-certifications.tsx:29-59 | the interleaved resources are the certificates' and the borders' together |
| CertificationsScene.LinksIntoCertificates | components/three-scene-certifications.tsx:58 | every border hangs from one of the certificates |
| CertificationsScene.CertificateNodes | components/three-scene-certifications.tsx:29-59 | the certificates' ids lie in the loop's range and no border is a certificate |
| CertificationsScene.LinksAt | components/three-scene-certifications.tsx:58 | border k hangs from certificate k |
| CertificationsScene.AddCertificate | components/three-scene-certifications.tsx:30-58 | one iteration: a certificate added to the scene, and a border added to the certificate, with four resources allocated |
| CertificationsScene.AddCertificateInto | components/three-scene-certifications.tsx:29-59 | the iteration extends the ledger by the new pair's resources and the parent map by the new pair |
| CertificationsScene.BuildCertificates | components/three-scene-certifications.tsx:29-59 | five certificates in the scene, each with its border as its child, and twenty resources allocated in build order |
| CertificationsScene.BuildContents | components/three-scene-certifications.tsx:25-91 | the certificates with their borders, the particles and the lights, with twenty-two resources allocated; the particle buffer holds the centred draws |
| CertificationsScene.Mount | components/three-scene-certifications.tsx:9-124 | no container: nothing changes; otherwise the certificates, the particles and two lights in a new scene, a canvas and a resize handler; the particle buffer holds the centred draws |
| CertificationsScene.Cleanup | components/three-scene-certifications.tsx:127-144 | the handler is removed, the canvas leaves a present container, and the certificates and particles are detached with their own resources disposed |
| CertificationsScene.AfterCleanup | components/three-scene-certifications.tsx:127-144 | after the cleanup the scene keeps only the lights, while each border still hangs from its certificate |
| CertificationsScene.BordersLeftOver | components/three-scene-certifications.tsx:132-143 | what was created is what the cleanup disposes plus the borders' resources |
| CertificationsScene.BordersLeak | components/three-scene-certifications.tsx:55-56 | one mount and its cleanup leak exactly the borders' ten resources, none of them ever disposed |
| CertificationsScene.Unmount | components/three-scene-certifications.tsx:127-144 | after a mount the cleanup disposes the certificates and particles only; the ledger leaks exactly the borders; listeners are restored and only the lights remain |
| CertificationsScene.Lifecycle | components/three-scene-certifications.tsx:9-144 | one mount and its cleanup, as written: with a container the ledger leaks exactly the borders' resources, and the borders stay attached to their certificates |
| CertificationsScene.CorrectedLifecycle | components/three-scene-certifications.tsx:127-144 | the cleanup with the borders disposed too: every geometry and material is disposed exactly once |
| ExperienceScene.TimelineLayout | components/three-scene-experience.tsx:34 | the timeline runs from -3 to 3, its points 1.5 apart and rising with the index |
| ExperienceScene.SegmentsChain | components/three-scene-experience.tsx:53-62 | each connection runs 1.5 along the x axis from its point back to the previous one, and consecutive connections share an end |
| ExperienceScene.KindsOfNodes | components/three-scene-experience.tsx:47-71 | drawables of one kind have only nodes of that kind |
| ExperienceScene.BuildOrder | components/three-scene-experience.tsx:33-74 | the timeline loop builds one sphere per point and one connection per later point |
| ExperienceScene.BuildOrderBag | components/three-scene-experience.tsx:33-74 | the interleaved resources are the spheres' and the connections' together |
| ExperienceScene.BuildOrderNodes | components/three-scene-experience.tsx:33-74 | the timeline's objects are the spheres and the connections |
| ExperienceScene.WriteTimelinePoint | components/three-scene-experience.tsx:34-37 | point i's x coordinate and two zeros go into slots 3i to 3i + 2, and no other slot changes |
| ExperienceScene.ConnectionPositions | components/three-scene-experience.tsx:55-62 | the connection's buffer holds point i and then point i - 1 |
| ExperienceScene.AddStation | components/three-scene-experience.tsx:39-73 | one iteration adds a sphere and, after the first point, the connection back to the previous point |
| ExperienceScene.BuildTimeline | components/three-scene-experience.tsx:33-74 | the timeline buffer holds the five points, with five spheres and four connections in the scene |
| ExperienceScene.BuildContents | components/three-scene-experience.tsx:29-108 | the timeline geometry first, then the spheres, connections, particles and lights, every connection a line and every light a light; the timeline buffer holds the five points and the particle buffer the centred draws |
| ExperienceScene.Mount | components/three-scene-experience.tsx:9-135 | no container: nothing changes; otherwise the timeline, the particles and two lights in a new scene, a canvas and a resize handler; the timeline buffer holds the five points and the particle buffer the centred draws |
| ExperienceScene.Cleanup | components/three-scene-experience.tsx:138-155 | the handler is removed, the canvas leaves a present container, and the spheres and particles are detached with their resources disposed |
| ExperienceScene.AfterCleanup | components/three-scene-experience.tsx:138-155 | after the cleanup the scene still holds the connections besides the lights |
| ExperienceScene.TimelineLeftOver | components/three-scene-experience.tsx:143-154 | what was created is the timeline geometry, the connections' resources and what the cleanup disposes |
| ExperienceScene.TimelineLeaks | components/three-scene-experience.tsx:54-72 | one mount and its cleanup leak exactly the timeline geometry and the connections' resources, none of them ever disposed |
| ExperienceScene.Unmount | components/three-scene-experience.tsx:138-155 | after a mount the ledger leaks the timeline geometry and the connections, which also stay in the scene |
| ExperienceScene.Lifecycle | components/three-scene-experience.tsx:9-155 | one mount and its cleanup, as written: with a container the timeline geometry and the four connections leak, and the connections stay in the scene |
| ExperienceScene.LightsApart | components/three-scene-experience.tsx:103-108 | no light is one of the connections |
| ExperienceScene.DisposeTimeline | components/three-scene-experience.tsx:54-72 | removing and disposing the connections and disposing the timeline geometry balances the ledger and leaves the scene's other children |
| ExperienceScene.CorrectedLifecycle | components/three-scene-experience.tsx:138-155 | the cleanup with the connections and the timeline geometry released too: every geometry and material is disposed exactly once and only the lights remain |

## Left out

- Rendering, cameras and the resize handler's body (aspect ratio, `setSize`) are not modelled. The handler is kept only as a registered listener.
- `requestAnimationFrame` is never cancelled by any cleanup. The model has no frame scheduler, so the frames that keep running after a cleanup are not modelled.
- `WebGLRenderer` is never disposed in the source. The model keeps only its canvas, and the ledger counts geometries and materials only.
- Floating point is modelled as `real`. `Float32Array` rounding is not modelled.
- `Math.sin`, `Math.cos`, `Math.acos` and `Math.PI` are not modelled. The contact globe's surface placement is a function parameter and a full turn is a parameter `tau`.
- `Date.now()` is the parameter `elapsed` of `CertificationsScene.Angle`.
- Buffers.FillParticles: states each slot's value as a `real` from its draw, not the `Float32` the buffer stores.
- The random rotations and positions of the about scene's cubes are left out (three-scene-about.tsx:40-50): they feed only rendering. Only the colour draw is modelled.
- The projects scene's random draws are left out: each hexagon's opacity `0.5 + Math.random() * 0.3` (three-scene-projects.tsx:34) and its depth `Math.random() * 2 - 1` (three-scene-projects.tsx:46). They feed only rendering. The model places each hexagon by its grid cell only.
- The about scene's per-frame cube motion, the projects scene's hexagon rotation and the skills scene's frame are left out. So are the particle rotations of the certifications and experience scenes, the certificates' `lookAt` and the experience spheres' pulse scale. Only the contact scene's rotations (Spin) and the certificates' angle law are modelled.
- The skills sphere's point positions (three-scene-skills.tsx:31-41) and the content of `EdgesGeometry` are not modelled: only their allocation is.
- Dom.Page.RemoveChild, SceneSetup.End: require the canvas to be a child of a present container, so the DOM `NotFoundError` of `removeChild` is not modelled. The source never reaches it while the container ref stays the element the canvas was appended to.
- The cleanups' `instanceof THREE.Material` / `Array.isArray` branch is not modelled. Every material in these scenes is a single object, so the model always takes the first branch.
- The carousel's `useEffect` re-subscribes its interval whenever `index` changes. The model treats each firing as one Tick, with no timer.
- The carousel's rendering (framer-motion animation, images, descriptions, technology badges) and the other page components (hero, navbar, contact form, footer, static sections) are not modelled.

## Findings

| source | as written | input that shows it | evidently intended | confidence | as-written member | corrected member |
|---|---|---|---|---|---|---|
| components/three-scene-certifications.tsx:127-144 | each certificate gets a border made of a new `EdgesGeometry` and a new `LineBasicMaterial`, but the cleanup disposes only the certificates' and the particles' resources | any mount with the container present: ten of the twenty-two resources are never disposed | dispose every border's geometry and material in the cleanup | high, not executed | CertificationsScene.BordersLeak | CertificationsScene.CorrectedLifecycle |
| components/three-scene-experience.tsx:138-155 | the timeline `lineGeometry` is allocated and given a position attribute, but it is never attached to any object and never disposed; the four connections are added to the scene but not kept in any list, so the cleanup neither removes them nor disposes their resources | any mount with the container present: nine of the twenty-one resources are never disposed, and the four connections stay in the scene | remove and dispose the connections and dispose the timeline geometry in the cleanup | high, not executed | ExperienceScene.TimelineLeaks | ExperienceScene.CorrectedLifecycle |

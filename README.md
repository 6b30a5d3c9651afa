# Portfolio page behaviour, modelled in Dafny

This project models the deterministic logic inside the portfolio site's
single script, `app.js`:

- **BackgroundEffectsController.** It keeps two maps: the section canvases and their pending animation frames. It runs seven `init*` methods, one per page section, and a `destroy`. Each section's `animate` closure updates its entities once per frame:
  - hero particles and sparkles wrap to the opposite edge;
  - books, code blocks, molecules, equations, trophies and medals wrap with a margin;
  - experience and contact nodes bounce by negating their velocity;
  - data-stream particles, pulse rings and message waves are removed when their life runs out, each population in its own way;
  - sparkles respawn in place;
  - a pulse ring is created at most every 1500 ms.
- **ThemeToggleController.** The light/dark theme, the guard that ignores toggles while the 300 ms toggle animation runs, `setTheme`, and the stored preference.
- **BrowserCompatibility.** `detectBrowser` and `extractVersion`.
- **Touch, navigation, profile card and scroll controllers.** The tap and drag tests of MobileTouchController, the exclusive `active` flags of `updateActiveLink` and `switchMode`, and the animate-once set of ScrollAnimationController.

The model follows the form of the source. Entity records are datatypes, and each per-frame rule is a function on one entity. Each section's closure state is a class whose arrays are updated in place by loops. The arrays that are pushed and spliced are `seq` fields, and the loops that splice them are proved equal to specification functions. The controllers whose fields change are classes, with methods proved against pure transition functions.

`Math.random()`, `Date.now()`, `requestAnimationFrame` ids, the measured canvas size, the user-agent string and the stored theme are all inputs of the model. A random draw is a real in [0, 1) (`Common.Unit`). Draws are passed in the order the source's object literals call `Math.random()`. Coordinates are reals, and canvas sizes are naturals.

Modules: `Common` (draws), `Motion` (the three per-axis rules), `Entities` (entity records, their creation and their per-frame step), `Removal` (the three removal loops and the population bounds), `Sections` (one class per section), `Effects` (the controller and its maps), `Theme`, `Browser`, `Interaction`.

### Notes on the code's behaviour

These properties of the code follow from its update rules and are proved about the model:

- **Hero wrap drops the overshoot.** A hero particle that leaves an edge is placed exactly on the opposite edge. At `x = width - 1` moving `vx = 2` it ends at `x = 0` (`Entities.HeroParticleWrapsToZero`).
- **Bounce is not clamped.** A bouncing node's position is never corrected, only its velocity. At `x = 0` moving `vx = -1` it ends at `x = -1` with `vx = 1` (`Entities.BounceNodeLeavesCanvas`). A node that starts inside can therefore be up to one step outside `[0, width]`, and never more (`Motion.BounceStaysNear`).
- **Nodes stranded by a resize.** When the canvas shrinks and leaves a slow node more than one step outside, the node is not pulled back. It returns to the same outside position every two frames (`Motion.StrandedNodeOscillates`).
- **Open populations are bounded anyway.** The source sets no cap on pulse rings or stream particles. Its constants bound them all the same: at most 74 rings (opacity starts at 0.6 and drops by 0.008 per frame, with at most one new ring per frame) and at most 49 particles per stream (life starts at 1 and drops by 0.02). This is proved as `Removal.RingFrameBounded` and `Removal.FlowFrameBounded`. No such bound is proved for message waves (see "Left out").
- **Skipped waves.** The message-wave `forEach` passes over the wave that slides into a removed wave's slot. That wave is not advanced in this frame and survives it even when advancing it would have expired it (`Removal.SweepWavesSpec`, `Removal.SweepPassesOverNextWave`).

## Model

| member | source | states |
|---|---|---|
| Common.Scale | app.js:1257-1258 | `Math.random() * span + lo` lies in [lo, lo + span], strictly below lo + span when span > 0 |
| Common.Centered | app.js:1259-1260 | `(Math.random() - 0.5) * span` lies in [-span/2, span/2) |
| Motion.WrapEdge | app.js:1274-1277 | for a non-negative dimension the result lies in [0, dim]; a coordinate inside is unchanged, one below 0 goes to dim, one beyond dim goes to exactly 0 |
| Motion.WrapMargin | app.js:1351-1354 | the result lies in [-m, dim + m]; a coordinate inside is unchanged, and one past either margin lands exactly on the opposite margin |
| Motion.Bounce | app.js:1415-1418 | the position gains the velocity and is never clamped; the velocity is kept when the new position is in [0, dim] and negated when it is outside |
| Motion.BouncePreservesNearInside | app.js:1415-1418 | a node inside the canvas, or outside and one step from re-entering, stays so after a bounce step, and is at most one step outside |
| Motion.BounceStaysNear | app.js:1415-1418 | from inside the canvas, after any number of frames the speed along the axis is unchanged and the node is never more than one step outside [0, dim] |
| Motion.StrandedNodeOscillates | app.js:1415-1418 | a node more than one step beyond the far edge is back at its start every two frames and beyond the edge in between, so it never re-enters |
| Entities.NewParticle | app.js:1253-1263 | a new hero particle lies within the canvas, with velocity in [-0.25, 0.25], size in [1, 3), opacity in [0.2, 0.7) |
| Entities.StepParticle | app.js:1269-1277 | after a step a hero particle lies within the canvas; only its position changes; overshooting the right edge lands at exactly 0, undershooting the left lands at the width, and a move that stays inside is kept |
| Entities.HeroParticleWrapsToZero | app.js:1269-1277 | a particle at width - 1 moving 2 to the right ends at x = 0 |
| Entities.NewBook | app.js:1304-1314 | a new book starts inside its margin box, with margin (its size) in [8, 23), phase step 0.05, rotation speed within 0.01 |
| Entities.NewCodeBlock | app.js:1489-1500 | a new code block starts inside its margin box, with margins its width in [20, 60) and height in [10, 30), phase step 0.04 |
| Entities.NewEquation | app.js:1634-1644 | a new equation starts inside its margin box, with margin in [15, 35), phase step 0.04, no rotation |
| Entities.NewTrophy | app.js:1772-1783 | a new trophy starts inside its margin box, with margin in [15, 35), phase step 0.03 |
| Entities.NewMedal | app.js:1786-1797 | a new medal starts inside its margin box, with margin in [10, 25) and swing speed in [0.02, 0.05) |
| Entities.StepDrifter | app.js:1345-1354 | a margin-wrapped entity moves, its phase and rotation advance by their speeds, nothing else changes; it ends inside its margin box, and one that left past a margin is placed exactly at the opposite margin |
| Entities.NewMolecule | app.js:1613-1630 | a new molecule starts inside its margin box, with three electrons on radius twice its size and speeds in [0.05, 0.08) |
| Entities.StepElectrons | app.js:1711-1712 | every electron's angle advances by its speed and the electrons stay the same in number and order |
| Entities.StepMolecule | app.js:1684-1693 | a molecule's body takes a margin-wrapped step; each electron advances its angle by its speed and keeps its radius and speed; the electrons keep their number and order |
| Entities.NewBrainWave | app.js:1648-1655 | the i-th brain wave sits at height h/6 * (i + 1), with frequency in [0.01, 0.03) and amplitude in [10, 30) |
| Entities.StepBrainWave | app.js:1662-1663 | only a brain wave's phase moves, by its frequency |
| Entities.NewExperienceNode | app.js:1396-1404 | a new experience node lies within the canvas, with velocity within 0.2 and size in [2, 6) |
| Entities.NewContactNode | app.js:1972-1981 | a new contact node lies within the canvas, with velocity within 0.15 and size in [4, 10) |
| Entities.StepNode | app.js:1411-1418 | a node moves by its velocity, its phase advances, each velocity component keeps its magnitude and flips exactly when the new coordinate is outside [0, dim] |
| Entities.BounceNodeLeavesCanvas | app.js:1415-1418 | a node at x = 0 moving -1 ends at x = -1 with velocity 1 |
| Entities.NewSparkle | app.js:1800-1811 | a new sparkle lies within the canvas with life in [50, 150) |
| Entities.StepSparkle | app.js:1909-1926 | a sparkle ends within the canvas, keeps its velocity and size, twinkles; life drops by 1, and when it runs out it is reset into [50, 150) and the position is redrawn within the canvas |
| Entities.NewRing | app.js:1991-1998 | a new pulse ring has radius 0, opacity 0.6, maximum radius in [80, 200), speed in [1, 2.5), and lies within the canvas |
| Entities.RingAlive | app.js:2021 | a ring stays while its opacity is positive and its radius has not passed its maximum; `Removal.RingFrameBounded` uses it |
| Entities.StepRing | app.js:2018-2019 | a ring's radius grows by its speed and its opacity drops by 0.008; nothing else changes |
| Entities.NewWave | app.js:2003-2011 | a new message wave has progress 0, life 1, size in [2, 6) and a target within the canvas |
| Entities.WaveExpired | app.js:2103 | a wave expires when its life reaches 0 or its progress reaches 1; `Removal.SweepWavesSpec` uses it |
| Entities.StepWave | app.js:2100-2101 | a wave's progress grows by 0.02 and its life drops by 0.01; nothing else changes |
| Entities.NewStream | app.js:1504-1513 | a new data stream lies within the canvas, with no particles and speed in [0.01, 0.03) |
| Entities.NewFlowParticle | app.js:1566-1572 | a new stream particle starts at the stream's origin with life 1 and size in [1, 4) |
| Entities.FlowAlive | app.js:1581 | a stream particle stays while its life is positive; `Removal.FlowFrameBounded` uses it |
| Entities.StepFlowParticle | app.js:1576-1579 | a stream particle's life drops by 0.02 and it moves by the stream's heading |
| Removal.Survivors | app.js:1576-1589 | the result of a `filter` whose callback updates each element first, which is also what the reverse splice loop over the pulse rings leaves; its properties are stated by `Removal.SurvivorsSpec` |
| Removal.SurvivorsSpec | app.js:2016-2024 | the survivors of an update-then-keep pass are exactly the updated elements that pass the test, in their original relative order, and no element is added |
| Removal.StaggeredSpread | app.js:2016-2024 | in a population whose levels rise by at least `gap` from one element to the next, elements k apart differ by at least k * gap |
| Removal.BoundedCount | app.js:2016-2024 | such a population with all levels in (0, top] has fewer than top / gap + 1 elements |
| Removal.FramePreservesBounded | app.js:2016-2024 | adding at most one element at level top + gap, then lowering every level by gap and dropping those at 0 or below, keeps the population bounded |
| Removal.RingFrameBounded | app.js:1990-2024 | one contact frame keeps the pulse rings bounded, so there are never more than 74 of them |
| Removal.FlowFrameBounded | app.js:1565-1589 | one stream frame keeps its particles bounded, so a stream never holds more than 49 particles |
| Removal.SweepWaves | app.js:2099-2106 | what the message-wave `forEach` with `splice` leaves: the visited wave is advanced and, when expired, spliced out, and the wave after it is passed over; its properties are stated by `Removal.SweepWavesSpec` and `Removal.SweepWavesSound` |
| Removal.SweepWavesSpec | app.js:2099-2106 | for every list of waves: a visited wave is advanced and removed exactly when it has expired; the wave right after a removed one is passed over and kept as it was; no other wave is removed; the order is kept and no wave is added |
| Removal.SweepWavesSound | app.js:2099-2106 | the message-wave pass never adds a wave: every wave left is an original wave, advanced or not, and there are no more of them than before |
| Removal.SweepWavesAsFilter | app.js:2099-2106 | when no wave but possibly the last one expires, the pass leaves exactly the survivors of a plain update-and-filter |
| Removal.SweepPassesOverNextWave | app.js:2099-2106 | of two waves that would both expire, the pass removes the first and leaves the second untouched, where a filter would remove both |
| Sections.Canvas.constructor | app.js:2171-2175 | a canvas holds the given width and height |
| Sections.Canvas.Resize | app.js:2171-2175 | `resizeCanvas` replaces width and height by the measured size |
| Sections.UpdateEach | app.js:1269-1287 | a `forEach` that updates in place leaves every element replaced by its update |
| Sections.HeroSection.constructor | app.js:1250-1264 | 50 particles are created from the canvas's size at creation |
| Sections.HeroSection.Animate | app.js:1269-1287 | every particle takes its wrap step and all end within the canvas |
| Sections.EducationSection.constructor | app.js:1300-1316 | 12 books are created inside their margin boxes; the frame counter starts at 0 |
| Sections.EducationSection.Animate | app.js:1345-1375 | every book takes its margin-wrapped step and ends inside its margin box; the counter advances by 1 |
| Sections.ExperienceSection.constructor | app.js:1390-1404 | 20 nodes are created within the canvas |
| Sections.ExperienceSection.Animate | app.js:1409-1419 | every node takes its bounce step with phase step 0.03 |
| Sections.StepStream | app.js:1562-1589 | a stream frame advances the angle by the speed, pushes one particle at the origin when the draw is below 0.1, and leaves the survivors of the particles' update |
| Sections.StreamFrameBounded | app.js:1562-1589 | a stream frame keeps the stream's particles bounded and at most 49 |
| Sections.ProjectsSection.constructor | app.js:1483-1513 | 15 code blocks and 8 empty streams are created |
| Sections.ProjectsSection.Animate | app.js:1518-1590 | code blocks take their margin-wrapped step with width and height as margins and end in their boxes; every stream takes its frame; no stream holds more than 49 particles |
| Sections.ProjectsSection.AdvanceStreams | app.js:1561-1590 | every stream takes its own frame, and all stay bounded |
| Sections.ResearchSection.constructor | app.js:1607-1656 | 12 molecules, 8 equations and 5 brain waves are created |
| Sections.ResearchSection.Animate | app.js:1662-1742 | brain-wave phases advance; molecules and equations take margin-wrapped steps and end in their margin boxes |
| Sections.AchievementsSection.constructor | app.js:1769-1812 | 8 trophies, 6 medals and 50 sparkles are created |
| Sections.AchievementsSection.UpdateSparkles | app.js:1909-1926 | the sparkle count never changes; every sparkle takes its step with its own respawn draws and ends within the canvas |
| Sections.AchievementsSection.Animate | app.js:1820-1926 | trophies and medals take margin-wrapped steps and end in their boxes, then the sparkles are updated |
| Sections.PulseDue | app.js:1990 | a pulse is due when more than 1500 ms passed since the last one; `Sections.PulsesSpaced` and `Sections.ContactSection.EmitPulse` state its consequences |
| Sections.PulsesSpaced | app.js:1990-2000 | over any sequence of frames, pulse rings are created only at frame times and more than 1500 ms apart |
| Sections.ContactSection.constructor | app.js:1966-1988 | 8 nodes within the canvas, no rings, no waves, last pulse at 0 |
| Sections.ContactSection.EmitPulse | app.js:1990-2000 | a ring is appended and the last pulse time becomes now exactly when more than 1500 ms passed; otherwise nothing changes |
| Sections.ContactSection.EmitMessageWave | app.js:2003-2013 | a wave is appended exactly when the draw is below 0.05 |
| Sections.ContactSection.UpdatePulseRings | app.js:2016-2024 | the reverse splice loop leaves exactly the survivors of the ring update, in order |
| Sections.ContactSection.UpdateMessageWaves | app.js:2099-2106 | the `forEach` splice loop leaves exactly what the sweep that passes over the wave after a removed one leaves |
| Sections.ContactSection.Animate | app.js:1984-2106 | a contact frame in source order: at most one new ring and one new wave, the ring loop, the node bounces with phase step 0.04, the wave loop; the rings stay bounded and never exceed 74 |
| Effects.BackgroundEffects.constructor | app.js:1228-1232 | both maps start empty |
| Effects.BackgroundEffects.Register | app.js:1249 | the section's canvas is recorded under its name |
| Effects.BackgroundEffects.Track | app.js:1286 | the section's frame id is recorded under its name |
| Effects.BackgroundEffects.InitHero | app.js:1244-1291 | without a canvas nothing is created and neither map changes; otherwise the canvas is registered, particles are created from its old size, it is resized, one frame runs at the new size, and the frame id is recorded |
| Effects.BackgroundEffects.InitEducation | app.js:1293-1380 | as for the hero section, with the books |
| Effects.BackgroundEffects.InitExperience | app.js:1382-1474 | as for the hero section, with the nodes |
| Effects.BackgroundEffects.InitProjects | app.js:1476-1597 | as for the hero section, with the code blocks and streams |
| Effects.BackgroundEffects.InitResearch | app.js:1599-1759 | as for the hero section, with the molecules, equations and brain waves |
| Effects.BackgroundEffects.InitAchievements | app.js:1761-1957 | as for the hero section, with the trophies, medals and sparkles |
| Effects.BackgroundEffects.InitContact | app.js:1959-2169 | as for the hero section, with the nodes; the first frame leaves at most one ring and one wave |
| Effects.BackgroundEffects.ResizeAll | app.js:2316-2322 | every registered canvas takes its element's new size |
| Effects.ResizeEach | app.js:2319-2321 | resizing distinct canvases one by one leaves each with its own new size |
| Effects.BackgroundEffects.Destroy | app.js:2177-2184 | every recorded frame id is cancelled, as many as there were entries, no other id; both maps end empty |
| Effects.CancelAll | app.js:2179-2181 | the ids handed to `cancelAnimationFrame` are exactly the map's values, one per entry |
| Theme.ThemeName | app.js:652 | the name of a theme parses back to that theme |
| Theme.ParseTheme | app.js:652 | exactly "light" and "dark" are themes |
| Theme.LoadThemePreference | app.js:649-666 | the theme is dark exactly when the saved value is "dark"; a missing, unreadable or invalid value gives light |
| Theme.Next | app.js:708-738 | a toggle while toggling changes nothing; otherwise it flips the theme, raises the guard and stores the new theme; the timer only lowers the guard; setTheme ignores any value but "light" and "dark" |
| Theme.GuardedTogglesIgnored | app.js:708-709 | while the guard is up, any number of toggles changes nothing |
| Theme.BurstFlipsOnce | app.js:676-738 | a burst of clicks before the timer fires flips the theme exactly once |
| Theme.ToggleTwiceRestores | app.js:708-738 | toggle, timer, toggle restores the theme |
| Theme.RunKeepsPersisted | app.js:668-674 | after any events the stored value reloads to the current theme |
| Theme.Initial | app.js:616-637 | without the button the theme stays light; otherwise it is the loaded preference and no toggle runs |
| Theme.ThemeToggle.constructor | app.js:606-637 | the controller starts in the initial state |
| Theme.ThemeToggle.ToggleTheme | app.js:708-738 | the fields change as one toggle event does |
| Theme.ThemeToggle.FinishToggle | app.js:733-738 | the fields change as the timer event does |
| Theme.ThemeToggle.SetTheme | app.js:932-938 | the fields change as one setTheme event does |
| Browser.IndexOfFrom | app.js:404 | the result is the first occurrence at or after k, or none when there is none |
| Browser.IndexOf | app.js:404 | -1 exactly when the prefix never occurs, otherwise its first occurrence |
| Browser.Includes | app.js:390 | true exactly when the token occurs somewhere |
| Browser.FirstPiece | app.js:407 | the first piece of a split has no separator, is a prefix, and stops at a separator or at the end |
| Browser.FirstPieceUnique | app.js:407 | any prefix with those three properties is the first piece |
| Browser.ExtractVersion | app.js:403-408 | "0" when the prefix is absent; otherwise the longest prefix of the text after the first occurrence that holds neither a space nor a '.' |
| Browser.ChromeMajorVersion | app.js:403-408 | "Chrome/120.0 Safari" gives "120" |
| Browser.DetectBrowser | app.js:387-401 | each answer holds only when its tokens occur and earlier rules fail, with the version read after its own token; Unknown with version "0" exactly when none of Chrome, Firefox, Safari, Edg occurs; an agent naming Edg but not Firefox is Edge exactly when the Safari rule (Safari without Chrome) does not apply |
| Interaction.IsInteractiveTap | app.js:233-235 | a simulated click needs a touch shorter than 200 ms that moved less than 5 px along each axis; `Interaction.InteractiveTapBounds` states its properties |
| Interaction.InteractiveTapBounds | app.js:225-235 | the tap test does not depend on the direction of the movement, accepts a touch shorter than 200 ms that did not move, and rejects one lasting 200 ms or more or moving 5 px or more sideways |
| Interaction.DragStart | app.js:101-107 | a touch starts undragged at the given time and position |
| Interaction.DragMove | app.js:113-127 | a move starts a drag exactly when it is more than 10 px from the start, and a drag stays one |
| Interaction.DragFinish | app.js:152-185 | a tap exactly when the touch never dragged and lasted under 200 ms, a drag end exactly when it dragged, nothing otherwise; the state is reset |
| Interaction.DragMovesAgree | app.js:113-127 | along any touch, moved and dragging agree, and dragging holds exactly when some move went beyond 10 px |
| Interaction.MatchingCount | app.js:1061-1068 | flags set where the mode matches number exactly the occurrences of the mode |
| Interaction.ExclusiveCount | app.js:1174-1182 | flags set only at the target leave exactly one up when the target is a link, none otherwise |
| Interaction.UpdateActiveLink | app.js:1174-1182 | only the target link is active afterwards, so exactly one or none |
| Interaction.MarkMatching | app.js:1061-1068 | exactly the elements whose mode matches are active, as many as the mode's occurrences |
| Interaction.ProfileCard.constructor | app.js:999-1006 | the card starts in the academic mode |
| Interaction.ProfileCard.SwitchMode | app.js:1057-1070 | the current mode changes nothing; another mode becomes current with exactly its buttons and panels active |
| Interaction.NewlyAnimated | app.js:1196-1201 | the elements one observer batch starts animating, in entry order; `Interaction.NewlyAnimatedSpec` states its properties |
| Interaction.NewlyAnimatedSpec | app.js:1196-1201 | a batch starts each element at most once, never one already animated, only intersecting ones, and every intersecting one not yet animated |
| Interaction.NothingNewStarts | app.js:1196-1201 | when every intersecting element is already animated nothing starts |
| Interaction.AnimateOnce | app.js:1196-1201 | the same batch again starts nothing |
| Interaction.ScrollAnimations.constructor | app.js:1186-1190 | nothing is animated at first |
| Interaction.ScrollAnimations.Observe | app.js:1196-1201 | the elements started are the batch's newly animated ones, and they join the animated set |

## Left out

- Canvas drawing: contexts, gradients, text, trails, concentric rings and connection lines are rendering output with no state.
- Quantities computed with `sin`, `cos`, `sqrt` or `pow`: pulsed sizes and opacities, connection distances, counter easing, and the drag distance (compared squared instead). A stream particle's heading `2 * (cos angle, sin angle)` is an input of each stream frame.
- `Math.random`, `Date.now`, `requestAnimationFrame`, `cancelAnimationFrame` and `setTimeout` are inputs or explicit events. The 300 ms theme timer is the `TimerFires` event.
- DOM queries, style and class mutations beyond the modelled flags, `IntersectionObserver` wiring, `CSS.supports` feature detection and `navigator` reads.
- `localStorage` is modelled by the value it holds. A failing `setItem` is not modelled, and a failing `getItem` is the same as a missing value.
- `debounce` and `throttle`, whose point is timing, together with the drag events they dispatch.
- The console-based theme and consistency tests, which only read computed styles.
- The achievements section's `celebrationBursts` array, which is declared and never used.
- The molecules' `rotationSpeed` draw, which is taken and never used. Contact node types and equation symbols, which only select what is drawn.
- Sections.Canvas.Resize: takes whole-number sizes. The conversion of the fractional measured size to the canvas's integer attributes is not modelled.
- Effects.BackgroundEffects.Destroy: does not state the order of the cancelled ids. JavaScript visits a Map in insertion order; the model only states which ids are cancelled.
- Effects.BackgroundEffects.InitContact: states only that the first frame leaves at most one ring and one wave, not which.
- Interaction.DragFinish: its outcome is characterised when `hasMoved` and `isDragging` agree, which `Interaction.DragMovesAgree` proves for every touch.
- Interaction.UpdateActiveLink: a link passed in that is not one of the navigation links would gain the class as well; the model only tracks the navigation links' own flags.
- No population bound is proved for message waves. At most one wave is added per frame, as for rings, but a passed-over wave is not advanced in that frame, which breaks the staggered-levels argument used for rings and stream particles.

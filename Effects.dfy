/** BackgroundEffectsController (app.js:1227-2186): the registry of the
    section canvases and of their pending animation frames, and the
    `init*` sequence each section follows: register the canvas, create
    the entities from the canvas's current size, resize the canvas to its
    element, run the first frame at the new size, record the frame id. */
module Effects {
  import opened Common
  import opened Entities
  import opened Removal
  import opened Sections

  /** The keys of the two maps, one per section. */
  datatype SectionName = Hero | Education | Experience | Projects | Research | Achievements | Contact

  /** A `requestAnimationFrame` request id. */
  type FrameId = nat

  /** The measured size of a canvas element (`getBoundingClientRect`),
      already converted to the integer width and height a canvas holds. */
  datatype Size = Size(width: nat, height: nat)

  class BackgroundEffects {
    var canvases: map<SectionName, Canvas>
    var animationFrames: map<SectionName, FrameId>

    /** Every registered section has a pending frame, and each section
        draws on its own canvas element. */
    ghost predicate Valid()
      reads this
    {
      && animationFrames.Keys == canvases.Keys
      && forall a, b :: a in canvases && b in canvases && a != b ==> canvases[a] != canvases[b]
    }

    /** A canvas that no other section already draws on. */
    ghost predicate Unclaimed(name: SectionName, canvas: Canvas?)
      reads this
    {
      forall n :: n in canvases && n != name ==> canvases[n] != canvas
    }

    /** app.js:1228-1232, before `init()` runs. */
    constructor ()
      ensures Valid() && canvases == map[] && animationFrames == map[]
    {
      canvases, animationFrames := map[], map[];
    }

    /** `this.canvases.set(name, { canvas, ctx })`. */
    method Register(name: SectionName, canvas: Canvas)
      modifies this`canvases
      ensures canvases == old(canvases)[name := canvas]
    {
      canvases := canvases[name := canvas];
    }

    /** `this.animationFrames.set(name, requestAnimationFrame(animate))`. */
    method Track(name: SectionName, frame: FrameId)
      modifies this`animationFrames
      ensures animationFrames == old(animationFrames)[name := frame]
    {
      animationFrames := animationFrames[name := frame];
    }

    /** initHeroParticles (app.js:1244-1291). No canvas element, no
        section: both maps are left as they were. */
    method InitHero(canvas: Canvas?, size: Size, draws: seq<seq<Unit>>, frame: FrameId)
      returns (s: HeroSection?)
      requires Valid() && Unclaimed(Hero, canvas)
      requires |draws| == 50 && forall i :: 0 <= i < 50 ==> |draws[i]| == 6
      modifies this, canvas
      ensures Valid() && (s == null <==> canvas == null)
      ensures canvas == null ==> canvases == old(canvases) && animationFrames == old(animationFrames)
      ensures canvas != null ==>
                && s != null && fresh(s) && fresh(s.particles) && s.canvas == canvas
                && canvases == old(canvases)[Hero := canvas] && animationFrames == old(animationFrames)[Hero := frame]
                && canvas.width == size.width && canvas.height == size.height
                && s.particles.Length == 50
                && forall i :: 0 <= i < 50 ==>
                     s.particles[i] == StepParticle(NewParticle(draws[i], old(canvas.width) as real, old(canvas.height) as real),
                                                    size.width as real, size.height as real)
    {
      s := null;
      if canvas == null {
        return;
      }
      Register(Hero, canvas);
      s := new HeroSection(canvas, draws);
      canvas.Resize(size.width, size.height);
      s.Animate();
      Track(Hero, frame);
    }

    /** initEducationWaves (app.js:1293-1380). */
    method InitEducation(canvas: Canvas?, size: Size, draws: seq<seq<Unit>>, frame: FrameId)
      returns (s: EducationSection?)
      requires Valid() && Unclaimed(Education, canvas)
      requires |draws| == 12 && forall i :: 0 <= i < 12 ==> |draws[i]| == 9
      modifies this, canvas
      ensures Valid() && (s == null <==> canvas == null)
      ensures canvas == null ==> canvases == old(canvases) && animationFrames == old(animationFrames)
      ensures canvas != null ==>
                && s != null && fresh(s) && fresh(s.books) && s.canvas == canvas && s.Valid() && s.time == 1
                && canvases == old(canvases)[Education := canvas]
                && animationFrames == old(animationFrames)[Education := frame]
                && canvas.width == size.width && canvas.height == size.height
                && s.books.Length == 12
                && forall i :: 0 <= i < 12 ==>
                     s.books[i] == StepDrifter(NewBook(draws[i], old(canvas.width) as real, old(canvas.height) as real),
                                               size.width as real, size.height as real)
    {
      s := null;
      if canvas == null {
        return;
      }
      Register(Education, canvas);
      s := new EducationSection(canvas, draws);
      canvas.Resize(size.width, size.height);
      s.Animate();
      Track(Education, frame);
    }

    /** initExperienceGrid (app.js:1382-1474). */
    method InitExperience(canvas: Canvas?, size: Size, draws: seq<seq<Unit>>, frame: FrameId)
      returns (s: ExperienceSection?)
      requires Valid() && Unclaimed(Experience, canvas)
      requires |draws| == 20 && forall i :: 0 <= i < 20 ==> |draws[i]| == 6
      modifies this, canvas
      ensures Valid() && (s == null <==> canvas == null)
      ensures canvas == null ==> canvases == old(canvases) && animationFrames == old(animationFrames)
      ensures canvas != null ==>
                && s != null && fresh(s) && fresh(s.nodes) && s.canvas == canvas
                && canvases == old(canvases)[Experience := canvas]
                && animationFrames == old(animationFrames)[Experience := frame]
                && canvas.width == size.width && canvas.height == size.height
                && s.nodes.Length == 20
                && forall i :: 0 <= i < 20 ==>
                     s.nodes[i] == StepNode(NewExperienceNode(draws[i], old(canvas.width) as real, old(canvas.height) as real),
                                            size.width as real, size.height as real, 0.03)
    {
      s := null;
      if canvas == null {
        return;
      }
      Register(Experience, canvas);
      s := new ExperienceSection(canvas, draws);
      canvas.Resize(size.width, size.height);
      s.Animate();
      Track(Experience, frame);
    }

    /** initProjectsOrbs (app.js:1476-1597). */
    method InitProjects(canvas: Canvas?, size: Size, blockDraws: seq<seq<Unit>>, streamDraws: seq<seq<Unit>>,
                        spawn: seq<SpawnDraw>, headings: seq<Heading>, frame: FrameId)
      returns (s: ProjectsSection?)
      requires Valid() && Unclaimed(Projects, canvas)
      requires |blockDraws| == 15 && forall i :: 0 <= i < 15 ==> |blockDraws[i]| == 10
      requires |streamDraws| == 8 && forall i :: 0 <= i < 8 ==> |streamDraws[i]| == 6
      requires |spawn| == 8 && |headings| == 8
      modifies this, canvas
      ensures Valid() && (s == null <==> canvas == null)
      ensures canvas == null ==> canvases == old(canvases) && animationFrames == old(animationFrames)
      ensures canvas != null ==>
                && s != null && fresh(s) && fresh(s.codeBlocks) && fresh(s.dataStreams) && s.canvas == canvas
                && s.Valid()
                && canvases == old(canvases)[Projects := canvas]
                && animationFrames == old(animationFrames)[Projects := frame]
                && canvas.width == size.width && canvas.height == size.height
                && s.codeBlocks.Length == 15 && s.dataStreams.Length == 8
                && (forall i :: 0 <= i < 15 ==>
                      s.codeBlocks[i] == StepDrifter(NewCodeBlock(blockDraws[i], old(canvas.width) as real, old(canvas.height) as real),
                                                     size.width as real, size.height as real))
                && forall i :: 0 <= i < 8 ==>
                     s.dataStreams[i] == StepStream(NewStream(streamDraws[i], old(canvas.width) as real, old(canvas.height) as real),
                                                    spawn[i].roll, spawn[i].size, headings[i].dx, headings[i].dy)
    {
      s := null;
      if canvas == null {
        return;
      }
      Register(Projects, canvas);
      s := new ProjectsSection(canvas, blockDraws, streamDraws);
      canvas.Resize(size.width, size.height);
      s.Animate(spawn, headings);
      Track(Projects, frame);
    }

    /** initResearchNetwork (app.js:1599-1759). */
    method InitResearch(canvas: Canvas?, size: Size, moleculeDraws: seq<seq<Unit>>, equationDraws: seq<seq<Unit>>,
                        waveDraws: seq<seq<Unit>>, frame: FrameId)
      returns (s: ResearchSection?)
      requires Valid() && Unclaimed(Research, canvas)
      requires |moleculeDraws| == 12 && forall i :: 0 <= i < 12 ==> |moleculeDraws[i]| == 10
      requires |equationDraws| == 8 && forall i :: 0 <= i < 8 ==> |equationDraws[i]| == 8
      requires |waveDraws| == 5 && forall i :: 0 <= i < 5 ==> |waveDraws[i]| == 4
      modifies this, canvas
      ensures Valid() && (s == null <==> canvas == null)
      ensures canvas == null ==> canvases == old(canvases) && animationFrames == old(animationFrames)
      ensures canvas != null ==>
                && s != null && fresh(s) && fresh(s.molecules) && fresh(s.equations) && fresh(s.brainWaves)
                && s.canvas == canvas && s.Valid()
                && canvases == old(canvases)[Research := canvas]
                && animationFrames == old(animationFrames)[Research := frame]
                && canvas.width == size.width && canvas.height == size.height
                && s.molecules.Length == 12 && s.equations.Length == 8 && s.brainWaves.Length == 5
                && (forall i :: 0 <= i < 12 ==>
                      s.molecules[i] == StepMolecule(NewMolecule(moleculeDraws[i], old(canvas.width) as real, old(canvas.height) as real),
                                                     size.width as real, size.height as real))
                && (forall i :: 0 <= i < 8 ==>
                      s.equations[i] == StepDrifter(NewEquation(equationDraws[i], old(canvas.width) as real, old(canvas.height) as real),
                                                    size.width as real, size.height as real))
                && forall i :: 0 <= i < 5 ==>
                     s.brainWaves[i] == StepBrainWave(NewBrainWave(i, waveDraws[i], old(canvas.height) as real))
    {
      s := null;
      if canvas == null {
        return;
      }
      Register(Research, canvas);
      s := new ResearchSection(canvas, moleculeDraws, equationDraws, waveDraws);
      canvas.Resize(size.width, size.height);
      s.Animate();
      Track(Research, frame);
    }

    /** initAchievementsStars (app.js:1761-1957). */
    method InitAchievements(canvas: Canvas?, size: Size, trophyDraws: seq<seq<Unit>>, medalDraws: seq<seq<Unit>>,
                            sparkleDraws: seq<seq<Unit>>, respawn: seq<seq<Unit>>, frame: FrameId)
      returns (s: AchievementsSection?)
      requires Valid() && Unclaimed(Achievements, canvas)
      requires |trophyDraws| == 8 && forall i :: 0 <= i < 8 ==> |trophyDraws[i]| == 9
      requires |medalDraws| == 6 && forall i :: 0 <= i < 6 ==> |medalDraws[i]| == 8
      requires |sparkleDraws| == 50 && forall i :: 0 <= i < 50 ==> |sparkleDraws[i]| == 8
      requires |respawn| == 50 && forall i :: 0 <= i < 50 ==> |respawn[i]| == 3
      modifies this, canvas
      ensures Valid() && (s == null <==> canvas == null)
      ensures canvas == null ==> canvases == old(canvases) && animationFrames == old(animationFrames)
      ensures canvas != null ==>
                && s != null && fresh(s) && fresh(s.trophies) && fresh(s.medals) && fresh(s.sparkles)
                && s.canvas == canvas && s.Valid()
                && canvases == old(canvases)[Achievements := canvas]
                && animationFrames == old(animationFrames)[Achievements := frame]
                && canvas.width == size.width && canvas.height == size.height
                && s.trophies.Length == 8 && s.medals.Length == 6 && s.sparkles.Length == 50
                && (forall i :: 0 <= i < 8 ==>
                      s.trophies[i] == StepDrifter(NewTrophy(trophyDraws[i], old(canvas.width) as real, old(canvas.height) as real),
                                                   size.width as real, size.height as real))
                && (forall i :: 0 <= i < 6 ==>
                      s.medals[i] == StepDrifter(NewMedal(medalDraws[i], old(canvas.width) as real, old(canvas.height) as real),
                                                 size.width as real, size.height as real))
                && forall i :: 0 <= i < 50 ==>
                     s.sparkles[i] == StepSparkle(NewSparkle(sparkleDraws[i], old(canvas.width) as real, old(canvas.height) as real),
                                                  size.width as real, size.height as real, respawn[i])
    {
      s := null;
      if canvas == null {
        return;
      }
      Register(Achievements, canvas);
      s := new AchievementsSection(canvas, trophyDraws, medalDraws, sparkleDraws);
      canvas.Resize(size.width, size.height);
      s.Animate(respawn);
      Track(Achievements, frame);
    }

    /** initContactRipples (app.js:1959-2169). The first frame runs with
        `lastPulse` still 0. */
    method InitContact(canvas: Canvas?, size: Size, draws: seq<seq<Unit>>, now: int, first: ContactDraws,
                       frame: FrameId)
      returns (s: ContactSection?)
      requires Valid() && Unclaimed(Contact, canvas)
      requires |draws| == 8 && forall i :: 0 <= i < 8 ==> |draws[i]| == 7
      requires |first.ring| == 4 && |first.wave| == 5
      modifies this, canvas
      ensures Valid() && (s == null <==> canvas == null)
      ensures canvas == null ==> canvases == old(canvases) && animationFrames == old(animationFrames)
      ensures canvas != null ==>
                && s != null && fresh(s) && fresh(s.nodes) && s.canvas == canvas && s.Valid()
                && canvases == old(canvases)[Contact := canvas]
                && animationFrames == old(animationFrames)[Contact := frame]
                && canvas.width == size.width && canvas.height == size.height
                && s.lastPulse == (if PulseDue(now, 0) then now else 0)
                && |s.pulseRings| <= 1 && |s.messageWaves| <= 1
                && s.nodes.Length == 8
                && forall i :: 0 <= i < 8 ==>
                     s.nodes[i] == StepNode(NewContactNode(draws[i], old(canvas.width) as real, old(canvas.height) as real),
                                            size.width as real, size.height as real, 0.04)
    {
      s := null;
      if canvas == null {
        return;
      }
      Register(Contact, canvas);
      s := new ContactSection(canvas, draws);
      canvas.Resize(size.width, size.height);
      s.Animate(now, first);
      SurvivorsSpec([] + (if PulseDue(now, 0) then [NewRing(first.ring, canvas.width as real, canvas.height as real)] else []),
                       StepRing, RingAlive);
      SweepWavesSound([] + (if first.waveRoll < 0.05 then [NewWave(first.wave, canvas.width as real, canvas.height as real)] else []));
      Track(Contact, frame);
    }

    /** The window resize handler (app.js:2316-2322): every registered
        canvas takes its element's new size; nothing else changes. */
    method ResizeAll(sizes: map<SectionName, Size>)
      requires Valid() && canvases.Keys <= sizes.Keys
      modifies canvases.Values
      ensures forall n :: n in canvases ==>
                canvases[n].width == sizes[n].width && canvases[n].height == sizes[n].height
    {
      ResizeEach(canvases, sizes);
    }

    /** destroy (app.js:2177-2185): every pending frame is cancelled, once
        per section, and both maps are emptied. The returned ids are the
        frames handed to `cancelAnimationFrame`. */
    method Destroy() returns (cancelled: seq<FrameId>)
      requires Valid()
      modifies this
      ensures Valid() && canvases == map[] && animationFrames == map[]
      ensures |cancelled| == |old(animationFrames)|
      ensures forall n :: n in old(animationFrames) ==> old(animationFrames)[n] in cancelled
      ensures forall f <- cancelled :: f in old(animationFrames).Values
    {
      cancelled := CancelAll(animationFrames);
      animationFrames, canvases := map[], map[];
    }
  }

  /** `animationFrames.forEach(id => cancelAnimationFrame(id))`: the ids
      handed over, one per entry of the map. */
  method CancelAll(frames: map<SectionName, FrameId>) returns (cancelled: seq<FrameId>)
    ensures |cancelled| == |frames|
    ensures forall n :: n in frames ==> frames[n] in cancelled
    ensures forall f <- cancelled :: f in frames.Values
  {
    var todo := frames.Keys;
    ghost var done: set<SectionName> := {};
    cancelled := [];
    while todo != {}
      invariant todo !! done && todo + done == frames.Keys
      invariant |cancelled| == |done|
      invariant forall n :: n in done ==> frames[n] in cancelled
      invariant forall f <- cancelled :: f in frames.Values
      decreases |todo|
    {
      var n :| n in todo;
      assert frames[n] in frames.Values;
      cancelled := cancelled + [frames[n]];
      todo, done := todo - {n}, done + {n};
    }
    assert done == frames.Keys;
  }

  /** `canvases.forEach(({ canvas }) => resizeCanvas(canvas))` over
      distinct canvases. */
  method ResizeEach(canvases: map<SectionName, Canvas>, sizes: map<SectionName, Size>)
    requires canvases.Keys <= sizes.Keys
    requires forall a, b :: a in canvases && b in canvases && a != b ==> canvases[a] != canvases[b]
    modifies canvases.Values
    ensures forall n :: n in canvases ==>
              canvases[n].width == sizes[n].width && canvases[n].height == sizes[n].height
  {
    var todo := canvases.Keys;
    ghost var done: set<SectionName> := {};
    while todo != {}
      invariant todo !! done && todo + done == canvases.Keys
      invariant forall m :: m in done ==>
                  canvases[m].width == sizes[m].width && canvases[m].height == sizes[m].height
      decreases |todo|
    {
      var n :| n in todo;
      var c := canvases[n];
      assert c in canvases.Values;
      assert forall m :: m in done ==> canvases[m] != c;
      c.Resize(sizes[n].width, sizes[n].height);
      todo, done := todo - {n}, done + {n};
    }
  }
}

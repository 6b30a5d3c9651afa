/** The state each `init*` method of BackgroundEffectsController captures
    in its `animate` closure, one class per page section, and that
    closure's per-frame update with the drawing left out. Entities are
    updated in place in arrays, as the source's `forEach` loops do; the
    open populations of the contact section are JS arrays that are pushed
    and spliced, modelled as `seq` fields that the methods reassign. */
module Sections {
  import opened Common
  import opened Entities
  import opened Removal

  /** A canvas element's drawing-surface size. `resizeCanvas` replaces it
      with the measured size of the element (app.js:2171-2175). */
  class Canvas {
    var width: nat
    var height: nat

    constructor (w: nat, h: nat)
      ensures width == w && height == h
    {
      width, height := w, h;
    }

    method Resize(w: nat, h: nat)
      modifies this
      ensures width == w && height == h
    {
      width, height := w, h;
    }
  }

  /** `array.forEach(e => { ...update e in place... })`. */
  method UpdateEach<T>(a: array<T>, f: T -> T)
    modifies a
    ensures forall i :: 0 <= i < a.Length ==> a[i] == f(old(a[i]))
  {
    for i := 0 to a.Length
      invariant forall k :: 0 <= k < i ==> a[k] == f(old(a[k]))
      invariant forall k :: i <= k < a.Length ==> a[k] == old(a[k])
    {
      a[i] := f(a[i]);
    }
  }

  predicate AllHaveMargins(ds: seq<Drifter>)
  {
    forall d <- ds :: HasMargins(d)
  }

  // ------------------------------------------------------------------ hero

  /** initHeroParticles (app.js:1241-1291). */
  class HeroSection {
    const canvas: Canvas
    const particles: array<Particle>

    /** 50 particles seeded within the canvas's size at creation time. */
    constructor (canvas: Canvas, draws: seq<seq<Unit>>)
      requires |draws| == 50 && forall i :: 0 <= i < 50 ==> |draws[i]| == 6
      ensures this.canvas == canvas && fresh(particles) && particles.Length == 50
      ensures forall i :: 0 <= i < 50 ==>
                particles[i] == NewParticle(draws[i], canvas.width as real, canvas.height as real)
    {
      this.canvas := canvas;
      var w, h := canvas.width as real, canvas.height as real;
      particles := new Particle[50](i requires 0 <= i < 50 => NewParticle(draws[i], w, h));
    }

    /** One frame: every particle moves and wraps, and all of them end
        inside the canvas. */
    method Animate()
      modifies particles
      ensures forall i :: 0 <= i < particles.Length ==>
                particles[i] == StepParticle(old(particles[i]), canvas.width as real, canvas.height as real)
      ensures forall i :: 0 <= i < particles.Length ==>
                0.0 <= particles[i].x <= canvas.width as real && 0.0 <= particles[i].y <= canvas.height as real
    {
      var w, h := canvas.width as real, canvas.height as real;
      UpdateEach(particles, p => StepParticle(p, w, h));
    }
  }

  // ------------------------------------------------------------- education

  /** initEducationWaves (app.js:1293-1380). `time` only feeds the drawing
      of the knowledge waves. */
  class EducationSection {
    const canvas: Canvas
    const books: array<Drifter>
    var time: nat

    ghost predicate Valid()
      reads this, books
    {
      AllHaveMargins(books[..])
    }

    constructor (canvas: Canvas, draws: seq<seq<Unit>>)
      requires |draws| == 12 && forall i :: 0 <= i < 12 ==> |draws[i]| == 9
      ensures Valid() && this.canvas == canvas && fresh(books) && books.Length == 12 && time == 0
      ensures forall i :: 0 <= i < 12 ==>
                books[i] == NewBook(draws[i], canvas.width as real, canvas.height as real)
    {
      this.canvas := canvas;
      var w, h := canvas.width as real, canvas.height as real;
      books := new Drifter[12](i requires 0 <= i < 12 => NewBook(draws[i], w, h));
      time := 0;
    }

    /** One frame: every book drifts and wraps with its size as margin and
        ends inside its margin box; the frame counter advances. */
    method Animate()
      requires Valid()
      modifies this, books
      ensures Valid() && time == old(time) + 1
      ensures forall i :: 0 <= i < books.Length ==>
                books[i] == StepDrifter(old(books[i]), canvas.width as real, canvas.height as real)
      ensures forall i :: 0 <= i < books.Length ==>
                InMarginBox(books[i], canvas.width as real, canvas.height as real)
    {
      var w, h := canvas.width as real, canvas.height as real;
      UpdateEach(books, d => StepDrifter(d, w, h));
      assert forall i :: 0 <= i < books.Length ==> old(books[i]) in old(books[..]);
      time := time + 1;
    }
  }

  // ------------------------------------------------------------ experience

  /** initExperienceGrid (app.js:1382-1474). */
  class ExperienceSection {
    const canvas: Canvas
    const nodes: array<Node>

    constructor (canvas: Canvas, draws: seq<seq<Unit>>)
      requires |draws| == 20 && forall i :: 0 <= i < 20 ==> |draws[i]| == 6
      ensures this.canvas == canvas && fresh(nodes) && nodes.Length == 20
      ensures forall i :: 0 <= i < 20 ==>
                nodes[i] == NewExperienceNode(draws[i], canvas.width as real, canvas.height as real)
    {
      this.canvas := canvas;
      var w, h := canvas.width as real, canvas.height as real;
      nodes := new Node[20](i requires 0 <= i < 20 => NewExperienceNode(draws[i], w, h));
    }

    /** One frame: every node bounces, pulse phase advancing 0.03. */
    method Animate()
      modifies nodes
      ensures forall i :: 0 <= i < nodes.Length ==>
                nodes[i] == StepNode(old(nodes[i]), canvas.width as real, canvas.height as real, 0.03)
    {
      var w, h := canvas.width as real, canvas.height as real;
      UpdateEach(nodes, n => StepNode(n, w, h, 0.03));
    }
  }

  // -------------------------------------------------------------- projects

  /** One frame of a data stream (app.js:1561-1590): the angle advances by
      the speed; when the roll is below 0.1 a particle is pushed at the
      stream's origin; then `filter` updates every particle (heading
      `(dx, dy)`) and keeps those with life left. */
  function StepStream(s: Stream, roll: Unit, sizeDraw: Unit, dx: real, dy: real): (t: Stream)
    ensures t == s.(angle := t.angle, particles := t.particles)
    ensures t.angle == s.angle + s.speed
    ensures t.particles == Survivors(s.particles + (if roll < 0.1 then [NewFlowParticle(s, sizeDraw)] else []),
                                     FlowStepper(dx, dy), FlowAlive)
  {
    var born := if roll < 0.1 then [NewFlowParticle(s, sizeDraw)] else [];
    s.(angle := s.angle + s.speed, particles := Survivors(s.particles + born, FlowStepper(dx, dy), FlowAlive))
  }

  /** The draws of one stream's frame: the spawn roll and the new
      particle's size draw. */
  datatype SpawnDraw = SpawnDraw(roll: Unit, size: Unit)

  /** The heading of one stream's particles: 2 * (cos angle, sin angle),
      computed from the stream's advanced angle. */
  datatype Heading = Heading(dx: real, dy: real)

  /** Between frames a stream's particles are bounded. */
  ghost predicate StreamBounded(s: Stream)
  {
    FlowBounded(s.particles)
  }

  /** A stream frame keeps the stream bounded, with at most 49 particles. */
  lemma StreamFrameBounded(s: Stream, d: SpawnDraw, hd: Heading)
    requires StreamBounded(s)
    ensures StreamBounded(StepStream(s, d.roll, d.size, hd.dx, hd.dy))
    ensures |StepStream(s, d.roll, d.size, hd.dx, hd.dy).particles| <= 49
  {
    FlowFrameBounded(s.particles, if d.roll < 0.1 then [NewFlowParticle(s, d.size)] else [], hd.dx, hd.dy);
  }

  /** initProjectsOrbs (app.js:1476-1597). */
  class ProjectsSection {
    const canvas: Canvas
    const codeBlocks: array<Drifter>
    const dataStreams: array<Stream>

    ghost predicate Valid()
      reads this, codeBlocks, dataStreams
    {
      && AllHaveMargins(codeBlocks[..])
      && forall i :: 0 <= i < dataStreams.Length ==> StreamBounded(dataStreams[i])
    }

    constructor (canvas: Canvas, blockDraws: seq<seq<Unit>>, streamDraws: seq<seq<Unit>>)
      requires |blockDraws| == 15 && forall i :: 0 <= i < 15 ==> |blockDraws[i]| == 10
      requires |streamDraws| == 8 && forall i :: 0 <= i < 8 ==> |streamDraws[i]| == 6
      ensures Valid() && this.canvas == canvas && fresh(codeBlocks) && fresh(dataStreams)
      ensures codeBlocks.Length == 15 && dataStreams.Length == 8
      ensures forall i :: 0 <= i < 15 ==>
                codeBlocks[i] == NewCodeBlock(blockDraws[i], canvas.width as real, canvas.height as real)
      ensures forall i :: 0 <= i < 8 ==>
                dataStreams[i] == NewStream(streamDraws[i], canvas.width as real, canvas.height as real)
    {
      this.canvas := canvas;
      var w, h := canvas.width as real, canvas.height as real;
      codeBlocks := new Drifter[15](i requires 0 <= i < 15 => NewCodeBlock(blockDraws[i], w, h));
      dataStreams := new Stream[8](i requires 0 <= i < 8 => NewStream(streamDraws[i], w, h));
      new;
      assert forall i :: 0 <= i < 8 ==> dataStreams[i].particles == [];
    }

    /** One frame: code blocks drift and wrap with their width and height
        as margins; every stream advances with its own draws and heading;
        no stream ever holds more than 49 particles. */
    method Animate(spawn: seq<SpawnDraw>, headings: seq<Heading>)
      requires Valid()
      requires |spawn| == dataStreams.Length && |headings| == dataStreams.Length
      modifies codeBlocks, dataStreams
      ensures Valid()
      ensures forall i :: 0 <= i < codeBlocks.Length ==>
                codeBlocks[i] == StepDrifter(old(codeBlocks[i]), canvas.width as real, canvas.height as real)
      ensures forall i :: 0 <= i < codeBlocks.Length ==>
                InMarginBox(codeBlocks[i], canvas.width as real, canvas.height as real)
      ensures forall i :: 0 <= i < dataStreams.Length ==>
                dataStreams[i] == StepStream(old(dataStreams[i]), spawn[i].roll, spawn[i].size,
                                             headings[i].dx, headings[i].dy)
      ensures forall i :: 0 <= i < dataStreams.Length ==> |dataStreams[i].particles| <= 49
    {
      var w, h := canvas.width as real, canvas.height as real;
      UpdateEach(codeBlocks, d => StepDrifter(d, w, h));
      assert forall i :: 0 <= i < codeBlocks.Length ==> old(codeBlocks[i]) in old(codeBlocks[..]);
      AdvanceStreams(spawn, headings);
    }

    /** The stream loop (app.js:1561-1590). */
    method AdvanceStreams(spawn: seq<SpawnDraw>, headings: seq<Heading>)
      requires forall i :: 0 <= i < dataStreams.Length ==> StreamBounded(dataStreams[i])
      requires |spawn| == dataStreams.Length && |headings| == dataStreams.Length
      modifies dataStreams
      ensures forall i :: 0 <= i < dataStreams.Length ==> StreamBounded(dataStreams[i])
      ensures forall i :: 0 <= i < dataStreams.Length ==>
                dataStreams[i] == StepStream(old(dataStreams[i]), spawn[i].roll, spawn[i].size,
                                             headings[i].dx, headings[i].dy)
      ensures forall i :: 0 <= i < dataStreams.Length ==> |dataStreams[i].particles| <= 49
    {
      for i := 0 to dataStreams.Length
        invariant forall k :: 0 <= k < i ==>
                    dataStreams[k] == StepStream(old(dataStreams[k]), spawn[k].roll, spawn[k].size,
                                                 headings[k].dx, headings[k].dy)
        invariant forall k :: i <= k < dataStreams.Length ==> dataStreams[k] == old(dataStreams[k])
        invariant forall k :: 0 <= k < dataStreams.Length ==> StreamBounded(dataStreams[k])
        invariant forall k :: 0 <= k < i ==> |dataStreams[k].particles| <= 49
      {
        StreamFrameBounded(dataStreams[i], spawn[i], headings[i]);
        dataStreams[i] := StepStream(dataStreams[i], spawn[i].roll, spawn[i].size, headings[i].dx, headings[i].dy);
      }
    }
  }

  // -------------------------------------------------------------- research

  /** initResearchNetwork (app.js:1599-1759). */
  class ResearchSection {
    const canvas: Canvas
    const molecules: array<Molecule>
    const equations: array<Drifter>
    const brainWaves: array<BrainWave>

    ghost predicate Valid()
      reads this, molecules, equations
    {
      && (forall m <- molecules[..] :: HasMargins(m.body))
      && AllHaveMargins(equations[..])
    }

    constructor (canvas: Canvas, moleculeDraws: seq<seq<Unit>>, equationDraws: seq<seq<Unit>>,
                 waveDraws: seq<seq<Unit>>)
      requires |moleculeDraws| == 12 && forall i :: 0 <= i < 12 ==> |moleculeDraws[i]| == 10
      requires |equationDraws| == 8 && forall i :: 0 <= i < 8 ==> |equationDraws[i]| == 8
      requires |waveDraws| == 5 && forall i :: 0 <= i < 5 ==> |waveDraws[i]| == 4
      ensures Valid() && this.canvas == canvas
      ensures fresh(molecules) && fresh(equations) && fresh(brainWaves)
      ensures molecules.Length == 12 && equations.Length == 8 && brainWaves.Length == 5
      ensures forall i :: 0 <= i < 12 ==>
                molecules[i] == NewMolecule(moleculeDraws[i], canvas.width as real, canvas.height as real)
      ensures forall i :: 0 <= i < 8 ==>
                equations[i] == NewEquation(equationDraws[i], canvas.width as real, canvas.height as real)
      ensures forall i :: 0 <= i < 5 ==> brainWaves[i] == NewBrainWave(i, waveDraws[i], canvas.height as real)
    {
      this.canvas := canvas;
      var w, h := canvas.width as real, canvas.height as real;
      molecules := new Molecule[12](i requires 0 <= i < 12 => NewMolecule(moleculeDraws[i], w, h));
      equations := new Drifter[8](i requires 0 <= i < 8 => NewEquation(equationDraws[i], w, h));
      brainWaves := new BrainWave[5](i requires 0 <= i < 5 => NewBrainWave(i, waveDraws[i], h));
    }

    /** One frame: brain-wave phases advance, molecules and equations
        drift and wrap with their size as margin and end inside their
        margin boxes. */
    method Animate()
      requires Valid()
      modifies molecules, equations, brainWaves
      ensures Valid()
      ensures forall i :: 0 <= i < brainWaves.Length ==> brainWaves[i] == StepBrainWave(old(brainWaves[i]))
      ensures forall i :: 0 <= i < molecules.Length ==>
                molecules[i] == StepMolecule(old(molecules[i]), canvas.width as real, canvas.height as real)
      ensures forall i :: 0 <= i < equations.Length ==>
                equations[i] == StepDrifter(old(equations[i]), canvas.width as real, canvas.height as real)
      ensures forall i :: 0 <= i < molecules.Length ==>
                InMarginBox(molecules[i].body, canvas.width as real, canvas.height as real)
      ensures forall i :: 0 <= i < equations.Length ==>
                InMarginBox(equations[i], canvas.width as real, canvas.height as real)
    {
      var w, h := canvas.width as real, canvas.height as real;
      UpdateEach(brainWaves, StepBrainWave);
      UpdateEach(molecules, m => StepMolecule(m, w, h));
      assert forall i :: 0 <= i < molecules.Length ==> old(molecules[i]) in old(molecules[..]);
      UpdateEach(equations, d => StepDrifter(d, w, h));
      assert forall i :: 0 <= i < equations.Length ==> old(equations[i]) in old(equations[..]);
    }
  }

  // ---------------------------------------------------------- achievements

  /** initAchievementsStars (app.js:1761-1957). The `celebrationBursts`
      array is declared and never used. */
  class AchievementsSection {
    const canvas: Canvas
    const trophies: array<Drifter>
    const medals: array<Drifter>
    const sparkles: array<Sparkle>

    ghost predicate Valid()
      reads this, trophies, medals
    {
      trophies != medals && AllHaveMargins(trophies[..]) && AllHaveMargins(medals[..])
    }

    constructor (canvas: Canvas, trophyDraws: seq<seq<Unit>>, medalDraws: seq<seq<Unit>>,
                 sparkleDraws: seq<seq<Unit>>)
      requires |trophyDraws| == 8 && forall i :: 0 <= i < 8 ==> |trophyDraws[i]| == 9
      requires |medalDraws| == 6 && forall i :: 0 <= i < 6 ==> |medalDraws[i]| == 8
      requires |sparkleDraws| == 50 && forall i :: 0 <= i < 50 ==> |sparkleDraws[i]| == 8
      ensures Valid() && this.canvas == canvas
      ensures fresh(trophies) && fresh(medals) && fresh(sparkles)
      ensures trophies.Length == 8 && medals.Length == 6 && sparkles.Length == 50
      ensures forall i :: 0 <= i < 8 ==>
                trophies[i] == NewTrophy(trophyDraws[i], canvas.width as real, canvas.height as real)
      ensures forall i :: 0 <= i < 6 ==>
                medals[i] == NewMedal(medalDraws[i], canvas.width as real, canvas.height as real)
      ensures forall i :: 0 <= i < 50 ==>
                sparkles[i] == NewSparkle(sparkleDraws[i], canvas.width as real, canvas.height as real)
    {
      this.canvas := canvas;
      var w, h := canvas.width as real, canvas.height as real;
      trophies := new Drifter[8](i requires 0 <= i < 8 => NewTrophy(trophyDraws[i], w, h));
      medals := new Drifter[6](i requires 0 <= i < 6 => NewMedal(medalDraws[i], w, h));
      sparkles := new Sparkle[50](i requires 0 <= i < 50 => NewSparkle(sparkleDraws[i], w, h));
    }

    /** The sparkle loop (app.js:1909-1926): each sparkle is updated in
        place, respawned from its own draws when its life ran out; the
        number of sparkles never changes and all end inside the canvas. */
    method UpdateSparkles(respawn: seq<seq<Unit>>)
      requires |respawn| == sparkles.Length && forall i :: 0 <= i < |respawn| ==> |respawn[i]| == 3
      modifies sparkles
      ensures forall i :: 0 <= i < sparkles.Length ==>
                sparkles[i] == StepSparkle(old(sparkles[i]), canvas.width as real, canvas.height as real, respawn[i])
      ensures forall i :: 0 <= i < sparkles.Length ==>
                0.0 <= sparkles[i].x <= canvas.width as real && 0.0 <= sparkles[i].y <= canvas.height as real
    {
      var w, h := canvas.width as real, canvas.height as real;
      for i := 0 to sparkles.Length
        invariant forall k :: 0 <= k < i ==> sparkles[k] == StepSparkle(old(sparkles[k]), w, h, respawn[k])
        invariant forall k :: i <= k < sparkles.Length ==> sparkles[k] == old(sparkles[k])
      {
        sparkles[i] := StepSparkle(sparkles[i], w, h, respawn[i]);
      }
    }

    /** One frame: trophies and medals drift and wrap with their size as
        margin; then the sparkles. */
    method Animate(respawn: seq<seq<Unit>>)
      requires Valid()
      requires |respawn| == sparkles.Length && forall i :: 0 <= i < |respawn| ==> |respawn[i]| == 3
      modifies trophies, medals, sparkles
      ensures Valid()
      ensures forall i :: 0 <= i < trophies.Length ==>
                trophies[i] == StepDrifter(old(trophies[i]), canvas.width as real, canvas.height as real)
      ensures forall i :: 0 <= i < medals.Length ==>
                medals[i] == StepDrifter(old(medals[i]), canvas.width as real, canvas.height as real)
      ensures forall i :: 0 <= i < sparkles.Length ==>
                sparkles[i] == StepSparkle(old(sparkles[i]), canvas.width as real, canvas.height as real, respawn[i])
      ensures forall i :: 0 <= i < trophies.Length ==> InMarginBox(trophies[i], canvas.width as real, canvas.height as real)
      ensures forall i :: 0 <= i < medals.Length ==> InMarginBox(medals[i], canvas.width as real, canvas.height as real)
    {
      var w, h := canvas.width as real, canvas.height as real;
      UpdateEach(trophies, d => StepDrifter(d, w, h));
      assert forall i :: 0 <= i < trophies.Length ==> old(trophies[i]) in old(trophies[..]);
      UpdateEach(medals, d => StepDrifter(d, w, h));
      assert forall i :: 0 <= i < medals.Length ==> old(medals[i]) in old(medals[..]);
      UpdateSparkles(respawn);
    }
  }

  // --------------------------------------------------------------- contact

  /** A new pulse ring is due when more than 1500 ms passed since the last
      one (app.js:1990). */
  predicate PulseDue(now: int, lastPulse: int)
  {
    now - lastPulse > 1500
  }

  /** The clock readings, among successive frames' `nows`, at which a pulse
      ring is created, starting from `lastPulse`. */
  function PulseTimes(lastPulse: int, nows: seq<int>): seq<int>
    decreases |nows|
  {
    if nows == [] then []
    else if PulseDue(nows[0], lastPulse) then [nows[0]] + PulseTimes(nows[0], nows[1..])
    else PulseTimes(lastPulse, nows[1..])
  }

  /** Pulse rings are created more than 1500 ms apart, whatever the clock
      readings, and only at frames' readings. */
  lemma {:induction false} PulsesSpaced(lastPulse: int, nows: seq<int>)
    ensures var ts := PulseTimes(lastPulse, nows);
      && |ts| <= |nows|
      && (|ts| > 0 ==> ts[0] - lastPulse > 1500)
      && (forall k :: 0 < k < |ts| ==> ts[k] - ts[k - 1] > 1500)
      && (forall t <- ts :: t in nows)
    decreases |nows|
  {
    if nows != [] {
      PulsesSpaced(if PulseDue(nows[0], lastPulse) then nows[0] else lastPulse, nows[1..]);
    }
  }

  /** The sweep's state between two visits: the waves already settled,
      followed by the input waves not yet reached. */
  ghost predicate SweepAt(ws0: seq<Wave>, done: seq<Wave>, j: nat, ws: seq<Wave>)
  {
    j <= |ws0| && ws == done + ws0[j..] && done + SweepWaves(ws0[j..]) == SweepWaves(ws0)
  }

  /** Splicing out an expired wave that has a successor settles that
      successor as it was. */
  lemma SweepSkipsNext(ws0: seq<Wave>, done: seq<Wave>, j: nat, ws: seq<Wave>)
    requires SweepAt(ws0, done, j, ws) && j + 1 < |ws0| && WaveExpired(StepWave(ws0[j]))
    ensures SweepAt(ws0, done + [ws0[j + 1]], j + 2, ws[..|done|] + ws[|done| + 1..])
  {
    var rest := ws0[j..];
    assert rest[1] == ws0[j + 1] && rest[2..] == ws0[j + 2..];
    assert SweepWaves(rest) == [ws0[j + 1]] + SweepWaves(ws0[j + 2..]);
    assert ws[..|done|] == done && ws[|done| + 1..] == rest[1..];
    assert rest[1..] == [ws0[j + 1]] + ws0[j + 2..];
  }

  /** Splicing out an expired last wave ends the sweep. */
  lemma SweepEndsAtLast(ws0: seq<Wave>, done: seq<Wave>, j: nat, ws: seq<Wave>)
    requires SweepAt(ws0, done, j, ws) && j + 1 == |ws0| && WaveExpired(StepWave(ws0[j]))
    ensures SweepAt(ws0, done, j + 1, ws[..|done|] + ws[|done| + 1..])
  {
    assert ws0[j..] == [ws0[j]];
    assert ws[..|done|] == done && ws[|done| + 1..] == [];
  }

  /** A wave still live after its step is settled, stepped, in its slot. */
  lemma SweepKeepsLive(ws0: seq<Wave>, done: seq<Wave>, j: nat, ws: seq<Wave>)
    requires SweepAt(ws0, done, j, ws) && j < |ws0| && !WaveExpired(StepWave(ws0[j]))
    ensures SweepAt(ws0, done + [StepWave(ws0[j])], j + 1,
                    ws[..|done|] + [StepWave(ws0[j])] + ws[|done| + 1..])
  {
    var rest := ws0[j..];
    assert rest[1..] == ws0[j + 1..];
    assert ws[..|done|] == done && ws[|done| + 1..] == rest[1..];
  }

  /** The draws of one contact frame. */
  datatype ContactDraws = ContactDraws(ring: seq<Unit>, waveRoll: Unit, wave: seq<Unit>)

  /** initContactRipples (app.js:1959-2169). */
  class ContactSection {
    const canvas: Canvas
    const nodes: array<Node>
    var pulseRings: seq<Ring>
    var messageWaves: seq<Wave>
    var lastPulse: int

    /** Between frames the rings are bounded, hence at most 74. */
    ghost predicate Valid()
      reads this
    {
      RingsBounded(pulseRings)
    }

    constructor (canvas: Canvas, draws: seq<seq<Unit>>)
      requires |draws| == 8 && forall i :: 0 <= i < 8 ==> |draws[i]| == 7
      ensures Valid() && this.canvas == canvas && fresh(nodes) && nodes.Length == 8
      ensures pulseRings == [] && messageWaves == [] && lastPulse == 0
      ensures forall i :: 0 <= i < 8 ==>
                nodes[i] == NewContactNode(draws[i], canvas.width as real, canvas.height as real)
    {
      this.canvas := canvas;
      var w, h := canvas.width as real, canvas.height as real;
      nodes := new Node[8](i requires 0 <= i < 8 => NewContactNode(draws[i], w, h));
      pulseRings, messageWaves, lastPulse := [], [], 0;
    }

    /** app.js:1990-2000: a ring is pushed and `lastPulse` moves to `now`
        exactly when the pulse is due; otherwise nothing changes. */
    method EmitPulse(now: int, draws: seq<Unit>)
      requires |draws| == 4
      modifies this`pulseRings, this`lastPulse
      ensures PulseDue(now, old(lastPulse)) ==>
                pulseRings == old(pulseRings) + [NewRing(draws, canvas.width as real, canvas.height as real)]
                && lastPulse == now
      ensures !PulseDue(now, old(lastPulse)) ==> pulseRings == old(pulseRings) && lastPulse == old(lastPulse)
    {
      if now - lastPulse > 1500 {
        pulseRings := pulseRings + [NewRing(draws, canvas.width as real, canvas.height as real)];
        lastPulse := now;
      }
    }

    /** app.js:2003-2013: with probability 0.05 a wave is pushed. */
    method EmitMessageWave(roll: Unit, draws: seq<Unit>)
      requires |draws| == 5
      modifies this`messageWaves
      ensures messageWaves == old(messageWaves) +
                (if roll < 0.05 then [NewWave(draws, canvas.width as real, canvas.height as real)] else [])
    {
      if roll < 0.05 {
        messageWaves := messageWaves + [NewWave(draws, canvas.width as real, canvas.height as real)];
      }
    }

    /** The reverse index loop over the rings (app.js:2016-2024): each ring
        grows and fades, and is spliced out when it faded out or outgrew
        its maximum. What is left is the survivors of the rings, in order. */
    method UpdatePulseRings()
      modifies this`pulseRings
      ensures pulseRings == Survivors(old(pulseRings), StepRing, RingAlive)
    {
      ghost var rings0 := pulseRings;
      var i := |pulseRings| - 1;
      while i >= 0
        invariant -1 <= i < |rings0|
        invariant pulseRings == rings0[..i + 1] + Survivors(rings0[i + 1..], StepRing, RingAlive)
        decreases i
      {
        assert pulseRings[i] == rings0[i];
        var ring := StepRing(pulseRings[i]);
        assert rings0[i..][1..] == rings0[i + 1..];
        if ring.opacity <= 0.0 || ring.radius > ring.maxRadius {
          pulseRings := pulseRings[..i] + pulseRings[i + 1..];
        } else {
          pulseRings := pulseRings[..i] + [ring] + pulseRings[i + 1..];
        }
        assert rings0[..i + 1][..i] == rings0[..i];
        i := i - 1;
      }
      assert rings0[0..] == rings0;
    }

    /** The `forEach` over the message waves (app.js:2099-2106): the
        visited wave advances and is spliced out when expired, and the
        index moves on regardless, so the wave that slid into the removed
        one's slot is passed over in this frame. (`forEach` stops at the
        array's original length and skips indices no longer present, which
        amounts to stopping when the index reaches the current length.) */
    method UpdateMessageWaves()
      modifies this`messageWaves
      ensures messageWaves == SweepWaves(old(messageWaves))
    {
      ghost var ws0 := messageWaves;
      ghost var j := 0;
      ghost var done: seq<Wave> := [];
      var ws := messageWaves;
      var i := 0;
      while i < |ws|
        invariant SweepAt(ws0, done, j, ws)
        invariant i == |done| || (i == |done| + 1 && j == |ws0|)
        decreases |ws| + 1 - i
      {
        assert i == |done| && j < |ws0| && ws[i] == ws0[j];
        var wave := StepWave(ws[i]);
        if wave.life <= 0.0 || wave.progress >= 1.0 {
          if j + 1 < |ws0| {
            SweepSkipsNext(ws0, done, j, ws);
            done, j := done + [ws0[j + 1]], j + 2;
          } else {
            SweepEndsAtLast(ws0, done, j, ws);
            j := j + 1;
          }
          ws := ws[..i] + ws[i + 1..];
        } else {
          SweepKeepsLive(ws0, done, j, ws);
          ws := ws[..i] + [wave] + ws[i + 1..];
          done, j := done + [wave], j + 1;
        }
        i := i + 1;
      }
      assert ws0[j..] == [];
      messageWaves := ws;
    }

    /** One frame in source order: maybe a new ring, maybe a new message
        wave, the ring loop, the nodes bounce (phase step 0.04), the wave
        loop. The ring population stays bounded, hence at most 74 rings. */
    method Animate(now: int, d: ContactDraws)
      requires Valid() && |d.ring| == 4 && |d.wave| == 5
      modifies this`pulseRings, this`messageWaves, this`lastPulse, nodes
      ensures Valid() && |pulseRings| <= 74
      ensures var born := if PulseDue(now, old(lastPulse))
                          then [NewRing(d.ring, canvas.width as real, canvas.height as real)] else [];
              pulseRings == Survivors(old(pulseRings) + born, StepRing, RingAlive)
      ensures lastPulse == if PulseDue(now, old(lastPulse)) then now else old(lastPulse)
      ensures var born := if d.waveRoll < 0.05
                          then [NewWave(d.wave, canvas.width as real, canvas.height as real)] else [];
              messageWaves == SweepWaves(old(messageWaves) + born)
      ensures forall i :: 0 <= i < nodes.Length ==>
                nodes[i] == StepNode(old(nodes[i]), canvas.width as real, canvas.height as real, 0.04)
    {
      var w, h := canvas.width as real, canvas.height as real;
      ghost var rings0 := pulseRings;
      EmitPulse(now, d.ring);
      EmitMessageWave(d.waveRoll, d.wave);
      ghost var born := pulseRings[|rings0|..];
      assert pulseRings == rings0 + born;
      RingFrameBounded(rings0, born);
      UpdatePulseRings();
      UpdateEach(nodes, n => StepNode(n, w, h, 0.04));
      UpdateMessageWaves();
    }
  }
}

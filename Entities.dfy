/** The entities of the seven background animations (app.js:1227-2185):
    one datatype per shape of entity, the factory each `init*` method uses
    to create one from its `Math.random()` draws (taken in the order the
    object literal makes them), and the per-frame update of one entity. */
module Entities {
  import opened Common
  import opened Motion

  // ---------------------------------------------------------------- hero

  /** A hero particle (app.js:1253-1263). */
  datatype Particle = Particle(x: real, y: real, vx: real, vy: real, size: real, opacity: real)

  function NewParticle(r: seq<Unit>, w: real, h: real): (p: Particle)
    requires |r| == 6
    ensures w >= 0.0 && h >= 0.0 ==> 0.0 <= p.x <= w && 0.0 <= p.y <= h
    ensures -0.25 <= p.vx <= 0.25 && -0.25 <= p.vy <= 0.25
    ensures 1.0 <= p.size < 3.0 && 0.2 <= p.opacity < 0.7
  {
    Particle(Scale(r[0], w, 0.0), Scale(r[1], h, 0.0), Centered(r[2], 0.5), Centered(r[3], 0.5),
             Scale(r[4], 2.0, 1.0), Scale(r[5], 0.5, 0.2))
  }

  /** One frame of a hero particle (app.js:1269-1277): it moves by its
      velocity and wraps to the opposite edge with no margin, so it always
      ends inside the canvas. Nothing but the position changes. */
  function StepParticle(p: Particle, w: real, h: real): (q: Particle)
    ensures w >= 0.0 && h >= 0.0 ==> 0.0 <= q.x <= w && 0.0 <= q.y <= h
    ensures q == p.(x := q.x, y := q.y)
    ensures p.x + p.vx > w && w >= 0.0 ==> q.x == 0.0
    ensures p.x + p.vx < 0.0 ==> q.x == w
    ensures 0.0 <= p.x + p.vx <= w ==> q.x == p.x + p.vx
  {
    p.(x := WrapEdge(p.x + p.vx, w), y := WrapEdge(p.y + p.vy, h))
  }

  // ------------------------------------------------------------ drifters

  /** The common shape of the margin-wrapped entities: books, code blocks,
      molecule bodies, equations, trophies and medals. `marginX`/`marginY`
      are the entity's `size` (or a code block's `width`/`height`); `phase`
      is its `pulsePhase` (a medal's `swingPhase`), advanced each frame by
      `phaseSpeed`; `rotation` advances by `rotationSpeed`, which is 0 for
      the kinds whose animation does not rotate them. */
  datatype Drifter = Drifter(x: real, y: real, vx: real, vy: real,
                             marginX: real, marginY: real,
                             phase: real, phaseSpeed: real,
                             rotation: real, rotationSpeed: real,
                             opacity: real)

  /** A drifter's box: the canvas grown by its margins. */
  predicate InMarginBox(d: Drifter, w: real, h: real)
  {
    -d.marginX <= d.x <= w + d.marginX && -d.marginY <= d.y <= h + d.marginY
  }

  predicate HasMargins(d: Drifter)
  {
    d.marginX > 0.0 && d.marginY > 0.0
  }

  /** app.js:1304-1314: size in [8, 23), pulse phase advancing 0.05. */
  function NewBook(r: seq<Unit>, w: real, h: real): (d: Drifter)
    requires |r| == 9
    ensures HasMargins(d) && 8.0 <= d.marginX == d.marginY < 23.0
    ensures w >= 0.0 && h >= 0.0 ==> InMarginBox(d, w, h)
    ensures d.phaseSpeed == 0.05 && -0.01 <= d.rotationSpeed <= 0.01
  {
    var size := Scale(r[2], 15.0, 8.0);
    Drifter(Scale(r[0], w, 0.0), Scale(r[1], h, 0.0), Centered(r[5], 0.3), Centered(r[6], 0.3),
            size, size, Scale(r[8], TwoPi, 0.0), 0.05,
            Scale(r[3], TwoPi, 0.0), Centered(r[4], 0.02), Scale(r[7], 0.4, 0.1))
  }

  /** app.js:1489-1500: margins are the block's width in [20, 60) and
      height in [10, 30); pulse phase advancing 0.04. */
  function NewCodeBlock(r: seq<Unit>, w: real, h: real): (d: Drifter)
    requires |r| == 10
    ensures HasMargins(d) && 20.0 <= d.marginX < 60.0 && 10.0 <= d.marginY < 30.0
    ensures w >= 0.0 && h >= 0.0 ==> InMarginBox(d, w, h)
    ensures d.phaseSpeed == 0.04 && -0.005 <= d.rotationSpeed <= 0.005
  {
    Drifter(Scale(r[0], w, 0.0), Scale(r[1], h, 0.0), Centered(r[4], 0.5), Centered(r[5], 0.5),
            Scale(r[2], 40.0, 20.0), Scale(r[3], 20.0, 10.0), Scale(r[9], TwoPi, 0.0), 0.04,
            Scale(r[6], TwoPi, 0.0), Centered(r[7], 0.01), Scale(r[8], 0.4, 0.2))
  }

  /** app.js:1634-1644: size in [15, 35), pulse phase advancing 0.04; the
      symbol draw (r[5]) only chooses the glyph that is drawn. */
  function NewEquation(r: seq<Unit>, w: real, h: real): (d: Drifter)
    requires |r| == 8
    ensures HasMargins(d) && 15.0 <= d.marginX == d.marginY < 35.0
    ensures w >= 0.0 && h >= 0.0 ==> InMarginBox(d, w, h)
    ensures d.phaseSpeed == 0.04 && d.rotationSpeed == 0.0
  {
    var size := Scale(r[7], 20.0, 15.0);
    Drifter(Scale(r[0], w, 0.0), Scale(r[1], h, 0.0), Centered(r[2], 0.2), Centered(r[3], 0.2),
            size, size, Scale(r[6], TwoPi, 0.0), 0.04, 0.0, 0.0, Scale(r[4], 0.4, 0.2))
  }

  /** app.js:1772-1783: size in [15, 35), pulse phase advancing 0.03. */
  function NewTrophy(r: seq<Unit>, w: real, h: real): (d: Drifter)
    requires |r| == 9
    ensures HasMargins(d) && 15.0 <= d.marginX == d.marginY < 35.0
    ensures w >= 0.0 && h >= 0.0 ==> InMarginBox(d, w, h)
    ensures d.phaseSpeed == 0.03 && -0.005 <= d.rotationSpeed <= 0.005
  {
    var size := Scale(r[4], 20.0, 15.0);
    Drifter(Scale(r[0], w, 0.0), Scale(r[1], h, 0.0), Centered(r[2], 0.3), Centered(r[3], 0.3),
            size, size, Scale(r[7], TwoPi, 0.0), 0.03,
            Scale(r[5], TwoPi, 0.0), Centered(r[6], 0.01), Scale(r[8], 0.4, 0.3))
  }

  /** app.js:1786-1797: size in [10, 25); the swing phase advances by the
      medal's own swing speed in [0.02, 0.05). */
  function NewMedal(r: seq<Unit>, w: real, h: real): (d: Drifter)
    requires |r| == 8
    ensures HasMargins(d) && 10.0 <= d.marginX == d.marginY < 25.0
    ensures w >= 0.0 && h >= 0.0 ==> InMarginBox(d, w, h)
    ensures 0.02 <= d.phaseSpeed < 0.05 && d.rotationSpeed == 0.0
  {
    var size := Scale(r[4], 15.0, 10.0);
    Drifter(Scale(r[0], w, 0.0), Scale(r[1], h, 0.0), Centered(r[2], 0.2), Centered(r[3], 0.2),
            size, size, Scale(r[5], TwoPi, 0.0), Scale(r[6], 0.03, 0.02), 0.0, 0.0,
            Scale(r[7], 0.5, 0.3))
  }

  /** One frame of a drifter (app.js:1345-1354, 1520-1529, 1684-1693,
      1730-1739, 1822-1831, 1865-1873): it moves, its phase and rotation
      advance, and a coordinate that left the margin box re-enters exactly
      at the opposite margin. With non-negative margins it always ends in
      its margin box. */
  function StepDrifter(d: Drifter, w: real, h: real): (e: Drifter)
    ensures e == d.(x := e.x, y := e.y, phase := e.phase, rotation := e.rotation)
    ensures e.phase == d.phase + d.phaseSpeed && e.rotation == d.rotation + d.rotationSpeed
    ensures d.marginX >= 0.0 && d.marginY >= 0.0 && w >= 0.0 && h >= 0.0 ==> InMarginBox(e, w, h)
    ensures d.x + d.vx < -d.marginX ==> e.x == w + d.marginX
    ensures d.x + d.vx > w + d.marginX && -d.marginX <= w + d.marginX ==> e.x == -d.marginX
    ensures d.y + d.vy < -d.marginY ==> e.y == h + d.marginY
    ensures d.y + d.vy > h + d.marginY && -d.marginY <= h + d.marginY ==> e.y == -d.marginY
    ensures -d.marginX <= d.x + d.vx <= w + d.marginX ==> e.x == d.x + d.vx
    ensures -d.marginY <= d.y + d.vy <= h + d.marginY ==> e.y == d.y + d.vy
  {
    d.(x := WrapMargin(d.x + d.vx, w, d.marginX), y := WrapMargin(d.y + d.vy, h, d.marginY),
       phase := d.phase + d.phaseSpeed, rotation := d.rotation + d.rotationSpeed)
  }

  // ----------------------------------------------------------- molecules

  /** An electron circling a molecule (app.js:1622-1629). */
  datatype Electron = Electron(angle: real, radius: real, speed: real)

  /** A molecule (app.js:1613-1630): a drifting body and its electrons. */
  datatype Molecule = Molecule(body: Drifter, electrons: seq<Electron>)

  /** app.js:1613-1630: size in [4, 12), pulse phase advancing 0.03; the
      molecule's own rotation speed (r[6]) is drawn but never used; three
      electrons at angles 0, 2pi/3, 4pi/3, orbit radius twice the size,
      speed in [0.05, 0.08). */
  function NewMolecule(r: seq<Unit>, w: real, h: real): (m: Molecule)
    requires |r| == 10
    ensures HasMargins(m.body) && 4.0 <= m.body.marginX == m.body.marginY < 12.0
    ensures w >= 0.0 && h >= 0.0 ==> InMarginBox(m.body, w, h)
    ensures m.body.phaseSpeed == 0.03 && m.body.rotationSpeed == 0.0
    ensures |m.electrons| == 3
    ensures forall e <- m.electrons :: e.radius == 2.0 * m.body.marginX && 0.05 <= e.speed < 0.08
  {
    var size := Scale(r[4], 8.0, 4.0);
    var body := Drifter(Scale(r[0], w, 0.0), Scale(r[1], h, 0.0), Centered(r[2], 0.3), Centered(r[3], 0.3),
                        size, size, Scale(r[5], TwoPi, 0.0), 0.03, 0.0, 0.0, 1.0);
    Molecule(body, [Electron(0.0, size * 2.0, Scale(r[7], 0.03, 0.05)),
                    Electron(TwoPi / 3.0, size * 2.0, Scale(r[8], 0.03, 0.05)),
                    Electron(2.0 * TwoPi / 3.0, size * 2.0, Scale(r[9], 0.03, 0.05))])
  }

  function StepElectrons(es: seq<Electron>): (fs: seq<Electron>)
    ensures |fs| == |es|
    ensures forall i :: 0 <= i < |es| ==> fs[i] == es[i].(angle := es[i].angle + es[i].speed)
  {
    seq(|es|, i requires 0 <= i < |es| => es[i].(angle := es[i].angle + es[i].speed))
  }

  /** One frame of a molecule (app.js:1684-1693, 1712-1713): the body
      drifts and wraps with its size as margin, every electron's angle
      advances by its speed. */
  function StepMolecule(m: Molecule, w: real, h: real): (n: Molecule)
    ensures n.body == StepDrifter(m.body, w, h)
    ensures |n.electrons| == |m.electrons|
    ensures forall i :: 0 <= i < |m.electrons| ==>
              n.electrons[i].angle == m.electrons[i].angle + m.electrons[i].speed
    ensures forall i :: 0 <= i < |m.electrons| ==>
              n.electrons[i] == m.electrons[i].(angle := m.electrons[i].angle + m.electrons[i].speed)
  {
    Molecule(StepDrifter(m.body, w, h), StepElectrons(m.electrons))
  }

  // --------------------------------------------------------- brain waves

  /** A brain-wave line of the research section (app.js:1648-1655). */
  datatype BrainWave = BrainWave(y: real, phase: real, amplitude: real, frequency: real, opacity: real)

  /** The `i`-th brain wave sits at height h/6 * (i+1). */
  function NewBrainWave(i: nat, r: seq<Unit>, h: real): (b: BrainWave)
    requires |r| == 4
    ensures b.y == h / 6.0 * (i + 1) as real
    ensures 0.01 <= b.frequency < 0.03 && 10.0 <= b.amplitude < 30.0
  {
    BrainWave(h / 6.0 * (i + 1) as real, Scale(r[0], TwoPi, 0.0), Scale(r[1], 20.0, 10.0),
              Scale(r[2], 0.02, 0.01), Scale(r[3], 0.3, 0.1))
  }

  /** app.js:1663: only the phase moves, by the wave's frequency. */
  function StepBrainWave(b: BrainWave): (c: BrainWave)
    ensures c == b.(phase := c.phase) && c.phase == b.phase + b.frequency
  {
    b.(phase := b.phase + b.frequency)
  }

  // --------------------------------------------------------------- nodes

  /** An experience or contact node (app.js:1396-1404, 1972-1981); the
      contact node's `type` only chooses the icon that is drawn. */
  datatype Node = Node(x: real, y: real, vx: real, vy: real, size: real, phase: real)

  /** Experience nodes: velocity in [-0.2, 0.2), size in [2, 6). */
  function NewExperienceNode(r: seq<Unit>, w: real, h: real): (n: Node)
    requires |r| == 6
    ensures w >= 0.0 && h >= 0.0 ==> 0.0 <= n.x <= w && 0.0 <= n.y <= h
    ensures -0.2 <= n.vx <= 0.2 && -0.2 <= n.vy <= 0.2 && 2.0 <= n.size < 6.0
  {
    Node(Scale(r[0], w, 0.0), Scale(r[1], h, 0.0), Centered(r[2], 0.4), Centered(r[3], 0.4),
         Scale(r[4], 4.0, 2.0), Scale(r[5], TwoPi, 0.0))
  }

  /** Contact nodes: velocity in [-0.15, 0.15), size in [4, 10). */
  function NewContactNode(r: seq<Unit>, w: real, h: real): (n: Node)
    requires |r| == 7
    ensures w >= 0.0 && h >= 0.0 ==> 0.0 <= n.x <= w && 0.0 <= n.y <= h
    ensures -0.15 <= n.vx <= 0.15 && -0.15 <= n.vy <= 0.15 && 4.0 <= n.size < 10.0
  {
    Node(Scale(r[0], w, 0.0), Scale(r[1], h, 0.0), Centered(r[2], 0.3), Centered(r[3], 0.3),
         Scale(r[4], 6.0, 4.0), Scale(r[5], TwoPi, 0.0))
  }

  /** One frame of a node (app.js:1411-1418, 2049-2056): each axis bounces
      independently and the pulse phase advances by `phaseStep` (0.03 for
      experience nodes, 0.04 for contact nodes). A velocity component keeps
      its magnitude and flips only when the new coordinate is outside the
      canvas; the position is never clamped. */
  function StepNode(n: Node, w: real, h: real, phaseStep: real): (m: Node)
    ensures m.x == n.x + n.vx && m.y == n.y + n.vy && m.phase == n.phase + phaseStep
    ensures m.size == n.size
    ensures m.vx == n.vx || m.vx == -n.vx
    ensures m.vy == n.vy || m.vy == -n.vy
    ensures (m.vx != n.vx) ==> (m.x < 0.0 || m.x > w)
    ensures (m.vy != n.vy) ==> (m.y < 0.0 || m.y > h)
    ensures (m.x < 0.0 || m.x > w) ==> m.vx == -n.vx
    ensures (m.y < 0.0 || m.y > h) ==> m.vy == -n.vy
  {
    var ax := Bounce(Axis(n.x, n.vx), w);
    var ay := Bounce(Axis(n.y, n.vy), h);
    n.(x := ax.pos, y := ay.pos, vx := ax.vel, vy := ay.vel, phase := n.phase + phaseStep)
  }

  // ------------------------------------------------------------ sparkles

  /** An achievements sparkle (app.js:1800-1811). */
  datatype Sparkle = Sparkle(x: real, y: real, vx: real, vy: real, size: real,
                             twinkle: real, twinkleSpeed: real, life: real)

  function NewSparkle(r: seq<Unit>, w: real, h: real): (s: Sparkle)
    requires |r| == 8
    ensures w >= 0.0 && h >= 0.0 ==> 0.0 <= s.x <= w && 0.0 <= s.y <= h
    ensures 50.0 <= s.life < 150.0
  {
    Sparkle(Scale(r[0], w, 0.0), Scale(r[1], h, 0.0), Centered(r[2], 0.5), Centered(r[3], 0.5),
            Scale(r[4], 3.0, 1.0), Scale(r[5], TwoPi, 0.0), Scale(r[6], 0.05, 0.02),
            Scale(r[7], 100.0, 50.0))
  }

  /** One frame of a sparkle (app.js:1909-1926). It moves, twinkles and
      loses one unit of life; when its life reaches 0 or less it is
      respawned in place from the draws `respawn` (x, y, life); then it
      wraps with no margin. It always ends inside the canvas, and it either
      lost exactly one unit of life or was respawned with life in [50, 150). */
  function StepSparkle(s: Sparkle, w: real, h: real, respawn: seq<Unit>): (t: Sparkle)
    requires |respawn| == 3
    ensures w >= 0.0 && h >= 0.0 ==> 0.0 <= t.x <= w && 0.0 <= t.y <= h
    ensures t.vx == s.vx && t.vy == s.vy && t.size == s.size && t.twinkleSpeed == s.twinkleSpeed
    ensures t.twinkle == s.twinkle + s.twinkleSpeed
    ensures s.life - 1.0 > 0.0 ==> t.life == s.life - 1.0
    ensures s.life - 1.0 > 0.0 ==> t.x == WrapEdge(s.x + s.vx, w) && t.y == WrapEdge(s.y + s.vy, h)
    ensures s.life - 1.0 <= 0.0 ==> 50.0 <= t.life < 150.0
    ensures s.life - 1.0 <= 0.0 && w >= 0.0 && h >= 0.0 ==>
              t.x == Scale(respawn[0], w, 0.0) && t.y == Scale(respawn[1], h, 0.0)
  {
    var moved := s.(x := s.x + s.vx, y := s.y + s.vy, twinkle := s.twinkle + s.twinkleSpeed,
                    life := s.life - 1.0);
    var live := if moved.life <= 0.0
                then moved.(x := Scale(respawn[0], w, 0.0), y := Scale(respawn[1], h, 0.0),
                            life := Scale(respawn[2], 100.0, 50.0))
                else moved;
    live.(x := WrapEdge(live.x, w), y := WrapEdge(live.y, h))
  }

  // ---------------------------------------------------- open populations

  /** A contact pulse ring (app.js:1991-1998). */
  datatype Ring = Ring(x: real, y: real, radius: real, maxRadius: real, opacity: real, speed: real)

  /** A new ring starts with radius 0 and opacity 0.6; its maximum radius
      is in [80, 200) and its speed in [1, 2.5). */
  function NewRing(r: seq<Unit>, w: real, h: real): (g: Ring)
    requires |r| == 4
    ensures g.radius == 0.0 && g.opacity == 0.6
    ensures 80.0 <= g.maxRadius < 200.0 && 1.0 <= g.speed < 2.5
    ensures w >= 0.0 && h >= 0.0 ==> 0.0 <= g.x <= w && 0.0 <= g.y <= h
  {
    Ring(Scale(r[0], w, 0.0), Scale(r[1], h, 0.0), 0.0, Scale(r[2], 120.0, 80.0), 0.6,
         Scale(r[3], 1.5, 1.0))
  }

  /** app.js:2018-2019: the radius grows by the speed, the opacity drops by
      0.008, nothing else changes. */
  function StepRing(g: Ring): (q: Ring)
    ensures q == g.(radius := q.radius, opacity := q.opacity)
    ensures q.radius == g.radius + g.speed && q.opacity == g.opacity - 0.008
  {
    g.(radius := g.radius + g.speed, opacity := g.opacity - 0.008)
  }

  /** A ring is kept unless it faded out or outgrew its maximum (app.js:2021). */
  predicate RingAlive(g: Ring)
  {
    !(g.opacity <= 0.0 || g.radius > g.maxRadius)
  }

  /** A contact message wave (app.js:2003-2011). */
  datatype Wave = Wave(x: real, y: real, targetX: real, targetY: real,
                       progress: real, life: real, size: real)

  function NewWave(r: seq<Unit>, w: real, h: real): (v: Wave)
    requires |r| == 5
    ensures v.progress == 0.0 && v.life == 1.0 && 2.0 <= v.size < 6.0
    ensures w >= 0.0 && h >= 0.0 ==> 0.0 <= v.targetX <= w && 0.0 <= v.targetY <= h
  {
    Wave(Scale(r[0], w, 0.0), Scale(r[1], h, 0.0), Scale(r[2], w, 0.0), Scale(r[3], h, 0.0),
         0.0, 1.0, Scale(r[4], 4.0, 2.0))
  }

  /** app.js:2100-2101: progress grows by 0.02, life drops by 0.01. */
  function StepWave(v: Wave): (u: Wave)
    ensures u == v.(progress := u.progress, life := u.life)
    ensures u.progress == v.progress + 0.02 && u.life == v.life - 0.01
  {
    v.(progress := v.progress + 0.02, life := v.life - 0.01)
  }

  /** app.js:2103: a wave ends when its life is gone or it arrived. */
  predicate WaveExpired(v: Wave)
  {
    v.life <= 0.0 || v.progress >= 1.0
  }

  /** A particle flowing out of a data stream (app.js:1567-1573). */
  datatype FlowParticle = FlowParticle(x: real, y: real, life: real, size: real)

  /** A data stream of the projects section (app.js:1504-1513). */
  datatype Stream = Stream(x: real, y: real, length: real, angle: real, speed: real,
                           opacity: real, particles: seq<FlowParticle>)

  function NewStream(r: seq<Unit>, w: real, h: real): (s: Stream)
    requires |r| == 6
    ensures s.particles == [] && 0.01 <= s.speed < 0.03
    ensures w >= 0.0 && h >= 0.0 ==> 0.0 <= s.x <= w && 0.0 <= s.y <= h
  {
    Stream(Scale(r[0], w, 0.0), Scale(r[1], h, 0.0), Scale(r[2], 100.0, 50.0),
           Scale(r[3], TwoPi, 0.0), Scale(r[4], 0.02, 0.01), Scale(r[5], 0.3, 0.1), [])
  }

  /** A new flow particle starts at the stream's origin with life 1. */
  function NewFlowParticle(s: Stream, r: Unit): (p: FlowParticle)
    ensures p.x == s.x && p.y == s.y && p.life == 1.0 && 1.0 <= p.size < 4.0
  {
    FlowParticle(s.x, s.y, 1.0, Scale(r, 3.0, 1.0))
  }

  /** app.js:1578-1580: life drops by 0.02 and the particle moves by the
      stream's heading (dx, dy) = 2 * (cos angle, sin angle). */
  function StepFlowParticle(p: FlowParticle, dx: real, dy: real): (q: FlowParticle)
    ensures q.life == p.life - 0.02 && q.x == p.x + dx && q.y == p.y + dy && q.size == p.size
  {
    p.(x := p.x + dx, y := p.y + dy, life := p.life - 0.02)
  }

  predicate FlowAlive(p: FlowParticle)
  {
    p.life > 0.0
  }

  // ------------------------------------------------------------ scenarios

  /** A hero particle one pixel short of the right edge, moving 2 to the
      right, lands exactly on the left edge. */
  lemma HeroParticleWrapsToZero(p: Particle, w: real, h: real)
    requires w >= 0.0 && p.x == w - 1.0 && p.vx == 2.0
    ensures StepParticle(p, w, h).x == 0.0
  {
  }

  /** A bounce node on the left edge moving left ends one pixel outside
      the canvas, moving right: its position is not clamped back to 0. */
  lemma BounceNodeLeavesCanvas(n: Node, w: real, h: real, phaseStep: real)
    requires n.x == 0.0 && n.vx == -1.0
    ensures StepNode(n, w, h, phaseStep).x == -1.0 && StepNode(n, w, h, phaseStep).vx == 1.0
  {
  }
}

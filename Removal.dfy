/** Lifetime-based removal from the open populations of the background
    animations, in the three forms the source uses:
    - `Array.prototype.filter` whose callback first updates the element
      (data-stream particles, app.js:1576-1589),
    - a reverse index loop that updates each element and `splice`s it out
      when it expired (pulse rings, app.js:2016-2024),
    - `forEach` that `splice`s the current element out (message waves,
      app.js:2099-2106), which passes over the element that slides into
      the removed one's slot.
    The first two leave the same result, `Survivors`; the third is
    `SweepWaves`. */
module Removal {
  import opened Entities

  /** Each element of `xs` updated by `step`, kept when `keep` accepts the
      updated value, in the original order. */
  function Survivors<T>(xs: seq<T>, step: T -> T, keep: T -> bool): seq<T>
  {
    if xs == [] then []
    else (if keep(step(xs[0])) then [step(xs[0])] else []) + Survivors(xs[1..], step, keep)
  }

  /** Indices `i` of `xs`, from `lo` on, whose updated element is kept. */
  ghost function KeptIndices<T>(xs: seq<T>, step: T -> T, keep: T -> bool, lo: nat): seq<nat>
    requires lo <= |xs|
    decreases |xs| - lo
  {
    if lo == |xs| then []
    else (if keep(step(xs[lo])) then [lo] else []) + KeptIndices(xs, step, keep, lo + 1)
  }

  /** Survivors of the suffix `xs[lo..]` are exactly the updated elements at
      the kept indices, listed in increasing index order; no element is
      added. */
  lemma {:induction false} SurvivorsFrom<T>(xs: seq<T>, step: T -> T, keep: T -> bool, lo: nat)
    requires lo <= |xs|
    ensures var out, idx := Survivors(xs[lo..], step, keep), KeptIndices(xs, step, keep, lo);
      && |out| == |idx| <= |xs| - lo
      && (forall k :: 0 <= k < |idx| ==> lo <= idx[k] < |xs| && out[k] == step(xs[idx[k]]))
      && (forall k, l :: 0 <= k < l < |idx| ==> idx[k] < idx[l])
      && (forall i :: lo <= i < |xs| ==> (i in idx <==> keep(step(xs[i]))))
    decreases |xs| - lo
  {
    if lo < |xs| {
      SurvivorsFrom(xs, step, keep, lo + 1);
      assert xs[lo..][1..] == xs[lo + 1..];
    }
  }

  /** The survivors are exactly the updated elements that are kept, in
      their original relative order, and there are never more of them
      than elements to begin with. */
  lemma SurvivorsSpec<T>(xs: seq<T>, step: T -> T, keep: T -> bool)
    ensures var out, idx := Survivors(xs, step, keep), KeptIndices(xs, step, keep, 0);
      && |out| == |idx| <= |xs|
      && (forall k :: 0 <= k < |idx| ==> idx[k] < |xs| && out[k] == step(xs[idx[k]]) && keep(out[k]))
      && (forall k, l :: 0 <= k < l < |idx| ==> idx[k] < idx[l])
      && (forall i :: 0 <= i < |xs| ==> (i in idx <==> keep(step(xs[i]))))
  {
    SurvivorsFrom(xs, step, keep, 0);
    assert xs[0..] == xs;
    var idx := KeptIndices(xs, step, keep, 0);
    forall k | 0 <= k < |idx| ensures keep(step(xs[idx[k]])) {
      assert idx[k] in idx;
    }
  }

  // ------------------------------------------------ staggered populations

  /** Elements are listed oldest first and each later one is at least `gap`
      higher in `level` (a ring's opacity, a flow particle's life). */
  ghost predicate Staggered<T>(xs: seq<T>, level: T -> real, gap: real)
  {
    forall i, j :: 0 <= i < j < |xs| ==> level(xs[i]) + gap <= level(xs[j])
  }

  /** The population invariant between frames: staggered, every level in
      (0, top]. */
  ghost predicate Bounded<T>(xs: seq<T>, level: T -> real, gap: real, top: real)
  {
    Staggered(xs, level, gap) && forall x <- xs :: 0.0 < level(x) <= top
  }

  lemma {:induction false} StaggeredSpread<T>(xs: seq<T>, level: T -> real, gap: real, k: nat)
    requires Staggered(xs, level, gap) && gap >= 0.0 && k < |xs|
    ensures level(xs[0]) + k as real * gap <= level(xs[k])
  {
    if k > 0 {
      StaggeredSpread(xs, level, gap, k - 1);
      assert (k - 1) as real * gap + gap == k as real * gap;
    }
  }

  /** A bounded population is small: n levels, `gap` apart, all in
      (0, top], need (n - 1) * gap < top. */
  lemma BoundedCount<T>(xs: seq<T>, level: T -> real, gap: real, top: real)
    requires gap > 0.0 && Bounded(xs, level, gap, top) && |xs| > 0
    ensures (|xs| - 1) as real * gap < top
  {
    StaggeredSpread(xs, level, gap, |xs| - 1);
    assert xs[0] in xs && xs[|xs| - 1] in xs;
  }

  /** Appending at most one element at level `top + gap` to a bounded
      population leaves it staggered with every level at most `top + gap`. */
  lemma AppendStaggered<T>(xs: seq<T>, born: seq<T>, level: T -> real, gap: real, top: real)
    requires gap > 0.0 && Bounded(xs, level, gap, top)
    requires |born| <= 1 && forall b <- born :: level(b) == top + gap
    ensures Staggered(xs + born, level, gap)
    ensures forall y <- xs + born :: level(y) <= top + gap
  {
    var ys := xs + born;
    forall i, j | 0 <= i < j < |ys| ensures level(ys[i]) + gap <= level(ys[j]) {
      if j >= |xs| {
        assert ys[i] == xs[i] && xs[i] in xs;
        assert ys[j] in born;
      }
    }
  }

  /** One instance of "kept elements have a positive level"; the solver
      does not pick this instance of a quantifier over function values on
      its own. */
  lemma KeptPositive<T>(keep: T -> bool, level: T -> real, y: T)
    requires forall x :: keep(x) ==> level(x) > 0.0
    ensures keep(y) ==> level(y) > 0.0
  {
  }

  /** Updating a staggered population whose levels are at most `top + gap`
      by a step that lowers every level by `gap`, then removing what is not
      kept (kept ones have a positive level), leaves it bounded. */
  lemma {:induction false} SurvivorsBounded<T>(ys: seq<T>, step: T -> T, keep: T -> bool,
                                              level: T -> real, gap: real, top: real)
    requires Staggered(ys, level, gap) && forall y <- ys :: level(y) <= top + gap
    requires forall x :: level(step(x)) == level(x) - gap
    requires forall x :: keep(x) ==> level(x) > 0.0
    ensures Bounded(Survivors(ys, step, keep), level, gap, top)
  {
    var out, idx := Survivors(ys, step, keep), KeptIndices(ys, step, keep, 0);
    SurvivorsSpec(ys, step, keep);
    forall k, l | 0 <= k < l < |out| ensures level(out[k]) + gap <= level(out[l]) {
      assert idx[k] < idx[l];
      assert level(out[k]) == level(ys[idx[k]]) - gap;
      assert level(out[l]) == level(ys[idx[l]]) - gap;
    }
    forall y <- out ensures 0.0 < level(y) <= top {
      var k :| 0 <= k < |out| && out[k] == y;
      var x := ys[idx[k]];
      KeptPositive(keep, level, y);
      assert y == step(x) && keep(y);
      assert level(y) == level(x) - gap;
      assert x in ys;
      assert level(x) <= top + gap;
    }
  }

  /** One frame of an open population: at most one element is appended at
      level `top + gap`, then every element drops by `gap` and those no
      longer kept are removed. The frame keeps the population bounded. */
  lemma FramePreservesBounded<T>(xs: seq<T>, born: seq<T>, step: T -> T, keep: T -> bool,
                                 level: T -> real, gap: real, top: real)
    requires gap > 0.0 && Bounded(xs, level, gap, top)
    requires |born| <= 1 && forall b <- born :: level(b) == top + gap
    requires forall x :: level(step(x)) == level(x) - gap
    requires forall x :: keep(x) ==> level(x) > 0.0
    ensures Bounded(Survivors(xs + born, step, keep), level, gap, top)
  {
    AppendStaggered(xs, born, level, gap, top);
    SurvivorsBounded(xs + born, step, keep, level, gap, top);
  }

  // ------------------------------------------------------- pulse rings

  function RingOpacity(g: Ring): real { g.opacity }

  /** Between frames the rings are listed oldest first, opacities 0.008
      apart and in (0, 0.592]. */
  ghost predicate RingsBounded(rings: seq<Ring>)
  {
    Bounded(rings, RingOpacity, 0.008, 0.592)
  }

  /** One contact frame (optional new ring, then the update loop) keeps the
      rings bounded, and a bounded set has at most 74 rings: the
      population the source leaves uncapped is capped by its constants. */
  lemma RingFrameBounded(rings: seq<Ring>, born: seq<Ring>)
    requires RingsBounded(rings)
    requires |born| <= 1 && forall b <- born :: b.opacity == 0.6
    ensures RingsBounded(Survivors(rings + born, StepRing, RingAlive))
    ensures |Survivors(rings + born, StepRing, RingAlive)| <= 74
  {
    FramePreservesBounded(rings, born, StepRing, RingAlive, RingOpacity, 0.008, 0.592);
    var out := Survivors(rings + born, StepRing, RingAlive);
    if |out| > 0 {
      BoundedCount(out, RingOpacity, 0.008, 0.592);
    }
  }

  // ------------------------------------------------------ flow particles

  function FlowLife(p: FlowParticle): real { p.life }

  /** The update of every flow particle of a stream whose heading is
      (dx, dy). */
  function FlowStepper(dx: real, dy: real): FlowParticle -> FlowParticle
  {
    p => StepFlowParticle(p, dx, dy)
  }

  /** Between frames a stream's particles are listed oldest first, lives
      0.02 apart and in (0, 0.98]. */
  ghost predicate FlowBounded(ps: seq<FlowParticle>)
  {
    Bounded(ps, FlowLife, 0.02, 0.98)
  }

  /** One stream frame keeps its particles bounded, and a bounded stream
      holds at most 49 particles. */
  lemma FlowFrameBounded(ps: seq<FlowParticle>, born: seq<FlowParticle>, dx: real, dy: real)
    requires FlowBounded(ps)
    requires |born| <= 1 && forall b <- born :: b.life == 1.0
    ensures FlowBounded(Survivors(ps + born, FlowStepper(dx, dy), FlowAlive))
    ensures |Survivors(ps + born, FlowStepper(dx, dy), FlowAlive)| <= 49
  {
    FramePreservesBounded(ps, born, FlowStepper(dx, dy), FlowAlive, FlowLife, 0.02, 0.98);
    var out := Survivors(ps + born, FlowStepper(dx, dy), FlowAlive);
    if |out| > 0 {
      BoundedCount(out, FlowLife, 0.02, 0.98);
    }
  }

  // ------------------------------------------------------- message waves

  /** What the message-wave `forEach` leaves (app.js:2099-2106). Each
      visited wave is advanced; an expired one is spliced out, and the wave
      that slides into its slot is passed over in this frame: it stays,
      not advanced, even when advancing it would have expired it. */
  function SweepWaves(ws: seq<Wave>): seq<Wave>
    decreases |ws|
  {
    if ws == [] then []
    else if WaveExpired(StepWave(ws[0])) then
      (if |ws| == 1 then [] else [ws[1]] + SweepWaves(ws[2..]))
    else [StepWave(ws[0])] + SweepWaves(ws[1..])
  }

  /** `y` is the wave at index `k` of `ws`, either as it was or advanced
      and not expired. */
  predicate WaveFromAt(y: Wave, ws: seq<Wave>, k: nat)
    requires k < |ws|
  {
    y == ws[k] || (y == StepWave(ws[k]) && !WaveExpired(y))
  }

  predicate WaveFrom(y: Wave, ws: seq<Wave>)
  {
    exists k :: 0 <= k < |ws| && WaveFromAt(y, ws, k)
  }

  /** No wave is added, and every remaining wave is either an input wave
      left as it was (passed over) or an advanced input wave that has not
      expired. */
  lemma {:induction false} SweepWavesSound(ws: seq<Wave>)
    ensures |SweepWaves(ws)| <= |ws|
    ensures forall y <- SweepWaves(ws) :: WaveFrom(y, ws)
    decreases |ws|
  {
    if ws != [] {
      if WaveExpired(StepWave(ws[0])) {
        if |ws| > 1 {
          SweepWavesSound(ws[2..]);
          forall y <- SweepWaves(ws) ensures WaveFrom(y, ws) {
            if y == ws[1] {
              assert WaveFromAt(y, ws, 1);
            } else {
              assert y in SweepWaves(ws[2..]);
              var k :| 0 <= k < |ws[2..]| && WaveFromAt(y, ws[2..], k);
              assert ws[2..][k] == ws[k + 2] && WaveFromAt(y, ws, k + 2);
            }
          }
        }
      } else {
        SweepWavesSound(ws[1..]);
        forall y <- SweepWaves(ws) ensures WaveFrom(y, ws) {
          if y == StepWave(ws[0]) {
            assert WaveFromAt(y, ws, 0);
          } else {
            assert y in SweepWaves(ws[1..]);
            var k :| 0 <= k < |ws[1..]| && WaveFromAt(y, ws[1..], k);
            assert ws[1..][k] == ws[k + 1] && WaveFromAt(y, ws, k + 1);
          }
        }
      }
    }
  }

  /** Wave `k` is passed over: the wave before it was visited and spliced
      out, so wave `k` slid into the slot the index had just left. */
  ghost predicate PassedOver(ws: seq<Wave>, k: nat)
    requires k < |ws|
    decreases k
  {
    k > 0 && !PassedOver(ws, k - 1) && WaveExpired(StepWave(ws[k - 1]))
  }

  /** Wave `k` is visited, advanced and spliced out. */
  ghost predicate SweepRemoves(ws: seq<Wave>, k: nat)
    requires k < |ws|
  {
    !PassedOver(ws, k) && WaveExpired(StepWave(ws[k]))
  }

  /** What is left of wave `k` when it is not removed: advanced when it was
      visited, as it was when it was passed over. */
  ghost function Settled(ws: seq<Wave>, k: nat): Wave
    requires k < |ws|
  {
    if PassedOver(ws, k) then ws[k] else StepWave(ws[k])
  }

  /** Indices of `ws`, from `lo` on, that the sweep does not remove. */
  ghost function SweptIndices(ws: seq<Wave>, lo: nat): seq<nat>
    requires lo <= |ws|
    decreases |ws| - lo
  {
    if lo == |ws| then []
    else (if SweepRemoves(ws, lo) then [] else [lo]) + SweptIndices(ws, lo + 1)
  }

  /** From a visited index `lo` on, the sweep leaves the settled waves at
      the indices it does not remove, in order. */
  lemma {:induction false} SweepFrom(ws: seq<Wave>, lo: nat)
    requires lo <= |ws| && (lo < |ws| ==> !PassedOver(ws, lo))
    ensures SweepIndexed(ws, lo, SweepWaves(ws[lo..]), SweptIndices(ws, lo))
    decreases |ws| - lo
  {
    if lo < |ws| {
      if WaveExpired(StepWave(ws[lo])) {
        if lo + 1 < |ws| {
          SweepFrom(ws, lo + 2);
          SweepRemovedStep(ws, lo);
        } else {
          SweepRemovedLast(ws, lo);
        }
      } else {
        SweepFrom(ws, lo + 1);
        SweepKeptStep(ws, lo);
      }
    }
  }

  /** A visited wave that expires, with a successor: the successor is
      passed over and the sweep goes on two places later. */
  lemma SweepRemovedStep(ws: seq<Wave>, lo: nat)
    requires lo + 1 < |ws| && !PassedOver(ws, lo) && WaveExpired(StepWave(ws[lo]))
    requires SweepIndexed(ws, lo + 2, SweepWaves(ws[lo + 2..]), SweptIndices(ws, lo + 2))
    ensures SweepIndexed(ws, lo, SweepWaves(ws[lo..]), SweptIndices(ws, lo))
  {
    var rest := ws[lo..];
    assert rest[0] == ws[lo] && rest[1] == ws[lo + 1] && rest[2..] == ws[lo + 2..];
    assert SweepRemoves(ws, lo);
    assert PassedOver(ws, lo + 1) && !SweepRemoves(ws, lo + 1) && Settled(ws, lo + 1) == ws[lo + 1];
    assert SweepWaves(rest) == [ws[lo + 1]] + SweepWaves(ws[lo + 2..]);
    assert SweptIndices(ws, lo) == [lo + 1] + SweptIndices(ws, lo + 2);
    SweepIndexedCons(ws, lo, lo + 1, SweepWaves(ws[lo + 2..]), SweptIndices(ws, lo + 2));
  }

  /** A visited last wave that expires ends the sweep with nothing kept. */
  lemma SweepRemovedLast(ws: seq<Wave>, lo: nat)
    requires lo + 1 == |ws| && !PassedOver(ws, lo) && WaveExpired(StepWave(ws[lo]))
    ensures SweepIndexed(ws, lo, SweepWaves(ws[lo..]), SweptIndices(ws, lo))
  {
    assert ws[lo..] == [ws[lo]];
    assert SweepRemoves(ws, lo);
    assert SweptIndices(ws, lo + 1) == [];
  }

  /** A visited wave that stays live is kept, stepped, and the sweep visits
      the next wave. */
  lemma SweepKeptStep(ws: seq<Wave>, lo: nat)
    requires lo < |ws| && !PassedOver(ws, lo) && !WaveExpired(StepWave(ws[lo]))
    requires SweepIndexed(ws, lo + 1, SweepWaves(ws[lo + 1..]), SweptIndices(ws, lo + 1))
    ensures SweepIndexed(ws, lo, SweepWaves(ws[lo..]), SweptIndices(ws, lo))
  {
    var rest := ws[lo..];
    assert rest[0] == ws[lo] && rest[1..] == ws[lo + 1..];
    assert !SweepRemoves(ws, lo) && Settled(ws, lo) == StepWave(ws[lo]);
    SweepIndexedCons(ws, lo, lo, SweepWaves(ws[lo + 1..]), SweptIndices(ws, lo + 1));
  }

  /** `out` lists the settled waves at the indices in `idx`, which are in
      increasing order and are exactly the indices from `lo` on that the
      sweep does not remove. */
  ghost predicate SweepIndexed(ws: seq<Wave>, lo: nat, out: seq<Wave>, idx: seq<nat>)
  {
    && |out| == |idx|
    && (forall k :: 0 <= k < |idx| ==> lo <= idx[k] < |ws| && out[k] == Settled(ws, idx[k]))
    && (forall k, l :: 0 <= k < l < |idx| ==> idx[k] < idx[l])
    && (forall i :: lo <= i < |ws| ==> (i in idx <==> !SweepRemoves(ws, i)))
  }

  /** Index `i` kept after the removed indices `lo` to `i - 1`, in front of
      what is kept after `i`. */
  lemma SweepIndexedCons(ws: seq<Wave>, lo: nat, i: nat, out: seq<Wave>, idx: seq<nat>)
    requires lo <= i < |ws| && !SweepRemoves(ws, i) && SweepIndexed(ws, i + 1, out, idx)
    requires forall j :: lo <= j < i ==> SweepRemoves(ws, j)
    ensures SweepIndexed(ws, lo, [Settled(ws, i)] + out, [i] + idx)
  {
    var out', idx' := [Settled(ws, i)] + out, [i] + idx;
    forall k | 0 <= k < |idx'| ensures lo <= idx'[k] < |ws| && out'[k] == Settled(ws, idx'[k]) {
      if k > 0 {
        assert idx'[k] == idx[k - 1] && out'[k] == out[k - 1];
      }
    }
    forall k, l | 0 <= k < l < |idx'| ensures idx'[k] < idx'[l] {
      if k > 0 {
        assert idx'[k] == idx[k - 1];
      }
      assert idx'[l] == idx[l - 1];
    }
    forall j | lo <= j < |ws| ensures j in idx' <==> !SweepRemoves(ws, j) {
      if j > i {
        assert j in idx' <==> j in idx;
      } else if j < i {
        assert forall k :: 0 <= k < |idx| ==> idx[k] != j;
      }
    }
  }

  /** What the message-wave pass leaves, for every list of waves: a wave
      the index visits is advanced, and spliced out exactly when it has
      expired; the wave right after a spliced-out one is passed over and
      kept as it was; no other wave is removed, and the order is kept. */
  lemma SweepWavesSpec(ws: seq<Wave>)
    ensures var out, idx := SweepWaves(ws), SweptIndices(ws, 0);
      && |out| == |idx| <= |ws|
      && (forall k :: 0 <= k < |idx| ==> idx[k] < |ws| && out[k] == Settled(ws, idx[k]))
      && (forall k, l :: 0 <= k < l < |idx| ==> idx[k] < idx[l])
      && (forall i :: 0 <= i < |ws| ==> (i in idx <==> !SweepRemoves(ws, i)))
      && (forall i :: 0 <= i < |ws| && !PassedOver(ws, i) ==>
            (SweepRemoves(ws, i) <==> WaveExpired(StepWave(ws[i]))))
      && (forall i :: 0 < i < |ws| && SweepRemoves(ws, i - 1) ==>
            PassedOver(ws, i) && i in idx && Settled(ws, i) == ws[i])
  {
    SweepFrom(ws, 0);
    assert ws[0..] == ws;
    var idx := SweptIndices(ws, 0);
    assert |idx| <= |ws| by {
      IncreasingBelow(idx, |ws|);
    }
  }

  /** A strictly increasing list of indices below `n` has at most `n`
      entries. */
  lemma {:induction false} IncreasingBelow(idx: seq<nat>, n: nat)
    requires forall k :: 0 <= k < |idx| ==> idx[k] < n
    requires forall k, l :: 0 <= k < l < |idx| ==> idx[k] < idx[l]
    ensures |idx| <= n
    decreases n
  {
    if idx != [] {
      var last := idx[|idx| - 1];
      IncreasingBelow(idx[..|idx| - 1], last);
    }
  }

  predicate WaveLive(v: Wave) { !WaveExpired(v) }

  /** When no wave but possibly the last one expires, nothing is passed
      over and the sweep leaves what a `filter` would. */
  lemma {:induction false} SweepWavesAsFilter(ws: seq<Wave>)
    requires forall i :: 0 <= i < |ws| - 1 ==> !WaveExpired(StepWave(ws[i]))
    ensures SweepWaves(ws) == Survivors(ws, StepWave, WaveLive)
    decreases |ws|
  {
    if ws != [] {
      if |ws| > 1 {
        assert !WaveExpired(StepWave(ws[0]));
        SweepWavesAsFilter(ws[1..]);
      } else {
        assert ws[1..] == [];
      }
    }
  }

  /** The pass-over made concrete: two waves that both expire in this
      frame; the first is removed, the second survives the frame not
      advanced, where a `filter` would have removed both. */
  lemma SweepPassesOverNextWave()
    ensures var a, b := Wave(0.0, 0.0, 1.0, 1.0, 0.99, 0.5, 2.0), Wave(0.0, 0.0, 1.0, 1.0, 0.98, 0.5, 2.0);
      && WaveExpired(StepWave(a)) && WaveExpired(StepWave(b))
      && SweepWaves([a, b]) == [b]
      && Survivors([a, b], StepWave, WaveLive) == []
  {
    var a, b := Wave(0.0, 0.0, 1.0, 1.0, 0.99, 0.5, 2.0), Wave(0.0, 0.0, 1.0, 1.0, 0.98, 0.5, 2.0);
    assert [a, b][2..] == [];
    assert [a, b][1..] == [b];
    assert [b][1..] == [];
    assert Survivors([b], StepWave, WaveLive) == [];
  }
}

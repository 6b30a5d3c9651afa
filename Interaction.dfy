/** Touch classification of MobileTouchController, the exclusive "active"
    flags of EnhancedNavigation and HolographicProfileCard, and the
    animate-once set of ScrollAnimationController. Elements are indices,
    class lists are booleans, clock readings and touch coordinates are
    inputs. */
module Interaction {
  import Motion

  // ------------------------------------------------------------------- taps

  /** `gestureRecognition.tap` (app.js:8). */
  const TapMaxDuration: int := 200
  const TapMaxMovement: real := 5.0
  /** `touchStartThreshold` (app.js:5). */
  const DragThreshold: real := 10.0

  /** The touchend test of an interactive element (app.js:229-235): a
      click is simulated when the touch lasted under 200 ms and moved
      under 5 px along each axis. */
  predicate IsInteractiveTap(duration: int, startX: real, startY: real, endX: real, endY: real)
  {
    duration < TapMaxDuration && Motion.Abs(endX - startX) < TapMaxMovement && Motion.Abs(endY - startY) < TapMaxMovement
  }

  /** The test is symmetric in direction, accepts a quick touch that did
      not move, and rejects any touch as long as 200 ms or moving 5 px. */
  lemma InteractiveTapBounds(duration: int, sx: real, sy: real, ex: real, ey: real)
    ensures IsInteractiveTap(duration, sx, sy, ex, ey) <==> IsInteractiveTap(duration, ex, ey, sx, sy)
    ensures duration < 200 ==> IsInteractiveTap(duration, sx, sy, sx, sy)
    ensures duration >= 200 || ex - sx >= 5.0 || sx - ex >= 5.0 ==> !IsInteractiveTap(duration, sx, sy, ex, ey)
  {
  }

  /** The closure state `touchData` of a draggable element (app.js:93-99). */
  datatype DragTouch = DragTouch(startX: real, startY: real, startTime: int, isDragging: bool, hasMoved: bool)

  const Idle := DragTouch(0.0, 0.0, 0, false, false)

  /** touchstart (app.js:101-111). */
  function DragStart(x: real, y: real, now: int): (d: DragTouch)
    ensures !d.isDragging && !d.hasMoved && d.startTime == now
    ensures d.startX == x && d.startY == y
  {
    DragTouch(x, y, now, false, false)
  }

  /** A touch position. */
  datatype Point = Point(x: real, y: real)

  /** More than 10 px away from where the touch started:
      `sqrt(dx * dx + dy * dy) > 10`, compared squared. */
  predicate Beyond(d: DragTouch, p: Point)
  {
    var dx, dy := p.x - d.startX, p.y - d.startY;
    dx * dx + dy * dy > DragThreshold * DragThreshold
  }

  /** touchmove (app.js:113-127): once the finger is more than 10 px from
      where it started (compared squared, so without the square root) the
      touch becomes a drag, and stays one. */
  function DragMove(d: DragTouch, x: real, y: real): (e: DragTouch)
    ensures e.startX == d.startX && e.startY == d.startY && e.startTime == d.startTime
    ensures d.isDragging ==> e == d
    ensures e.isDragging <==> d.isDragging || Beyond(d, Point(x, y))
    ensures d.hasMoved == d.isDragging ==> e.hasMoved == e.isDragging
  {
    if Beyond(d, Point(x, y)) && !d.isDragging then
      d.(isDragging := true, hasMoved := true)
    else d
  }

  datatype TouchOutcome = Tap | DragEnd | NoEvent

  /** touchend (app.js:152-178): a tap when the touch never moved and was
      short, the end of a drag when it was dragging, nothing otherwise;
      then the state is reset. */
  function DragFinish(d: DragTouch, now: int): (r: (TouchOutcome, DragTouch))
    ensures r.1 == Idle
    ensures d.hasMoved == d.isDragging ==>
              && (r.0 == Tap <==> !d.isDragging && now - d.startTime < TapMaxDuration)
              && (r.0 == DragEnd <==> d.isDragging)
              && (r.0 == NoEvent <==> !d.isDragging && now - d.startTime >= TapMaxDuration)
  {
    var duration := now - d.startTime;
    var outcome :=
      if !d.hasMoved && duration < TapMaxDuration then Tap
      else if d.isDragging then DragEnd
      else NoEvent;
    (outcome, Idle)
  }


  function DragMoves(d: DragTouch, ps: seq<Point>): DragTouch
    decreases |ps|
  {
    if ps == [] then d else DragMoves(DragMove(d, ps[0].x, ps[0].y), ps[1..])
  }

  /** Along any touch, `hasMoved` and `isDragging` agree, and a touch
      becomes a drag exactly when some move went beyond the threshold. */
  lemma {:induction false} DragMovesAgree(d: DragTouch, ps: seq<Point>)
    requires d.hasMoved == d.isDragging
    ensures DragMoves(d, ps).hasMoved == DragMoves(d, ps).isDragging
    ensures DragMoves(d, ps).isDragging <==>
              d.isDragging || exists k :: 0 <= k < |ps| && Beyond(d, ps[k])
    decreases |ps|
  {
    if ps != [] {
      var e := DragMove(d, ps[0].x, ps[0].y);
      DragMovesAgree(e, ps[1..]);
      if DragMoves(d, ps).isDragging && !d.isDragging {
        if e.isDragging {
          assert Beyond(d, ps[0]);
        } else {
          var k :| 0 <= k < |ps[1..]| && Beyond(e, ps[1..][k]);
          assert Beyond(d, ps[k + 1]);
        }
      }
      if exists k :: 0 <= k < |ps| && Beyond(d, ps[k]) {
        var k :| 0 <= k < |ps| && Beyond(d, ps[k]);
        if k > 0 && !e.isDragging {
          assert Beyond(e, ps[1..][k - 1]);
        }
      }
    }
  }

  // ---------------------------------------------------------- active flags

  function CountTrue(s: seq<bool>): nat
    decreases |s|
  {
    if s == [] then 0 else (if s[0] then 1 else 0) + CountTrue(s[1..])
  }

  /** Flags that match the keys equal to `key` number as many as those
      keys. */
  lemma {:induction false} MatchingCount<K>(flags: seq<bool>, keys: seq<K>, key: K)
    requires |flags| == |keys| && forall i :: 0 <= i < |keys| ==> flags[i] == (keys[i] == key)
    ensures CountTrue(flags) == multiset(keys)[key]
    decreases |keys|
  {
    if keys != [] {
      MatchingCount(flags[1..], keys[1..], key);
      assert keys == [keys[0]] + keys[1..];
      assert multiset(keys) == multiset{keys[0]} + multiset(keys[1..]);
    }
  }

  /** Exactly one flag is up when the target is one of the positions, and
      none otherwise. */
  lemma {:induction false} ExclusiveCount(flags: seq<bool>, target: int)
    requires forall i :: 0 <= i < |flags| ==> flags[i] == (i == target)
    ensures CountTrue(flags) == if 0 <= target < |flags| then 1 else 0
    decreases |flags|
  {
    if flags != [] {
      ExclusiveCount(flags[1..], target - 1);
    }
  }

  /** updateActiveLink (app.js:1174-1182): the class is removed from every
      navigation link, then added to the link of the visible section.
      `target` is that link's position among the navigation links; a link
      that is not among them (any other value) leaves them all inactive. */
  method UpdateActiveLink(links: array<bool>, target: int)
    modifies links
    ensures forall i :: 0 <= i < links.Length ==> links[i] == (i == target)
    ensures CountTrue(links[..]) == if 0 <= target < links.Length then 1 else 0
  {
    for i := 0 to links.Length
      invariant forall k :: 0 <= k < i ==> !links[k]
    {
      links[i] := false;
    }
    if 0 <= target < links.Length {
      links[target] := true;
    }
    ExclusiveCount(links[..], target);
  }

  /** `elements.forEach(e => e.classList.toggle('active', e.dataset.mode === mode))`. */
  method MarkMatching(flags: array<bool>, modes: seq<string>, mode: string)
    requires flags.Length == |modes|
    modifies flags
    ensures forall i :: 0 <= i < flags.Length ==> flags[i] == (modes[i] == mode)
    ensures CountTrue(flags[..]) == multiset(modes)[mode]
  {
    for i := 0 to flags.Length
      invariant forall k :: 0 <= k < i ==> flags[k] == (modes[k] == mode)
    {
      flags[i] := modes[i] == mode;
    }
    MatchingCount(flags[..], modes, mode);
  }

  /** HolographicProfileCard (app.js:998-1077): the mode buttons and the
      content panels, each with its `data-mode`, and the current mode. */
  class ProfileCard {
    const buttonModes: seq<string>
    const buttons: array<bool>
    const contentModes: seq<string>
    const contents: array<bool>
    var currentMode: string

    ghost predicate Valid()
      reads this
    {
      buttons.Length == |buttonModes| && contents.Length == |contentModes| && buttons != contents
    }

    /** The card starts in the "academic" mode (app.js:1004), with the
        page's initial classes. */
    constructor (buttonModes: seq<string>, buttonFlags: seq<bool>, contentModes: seq<string>, contentFlags: seq<bool>)
      requires |buttonFlags| == |buttonModes| && |contentFlags| == |contentModes|
      ensures Valid() && currentMode == "academic"
      ensures this.buttonModes == buttonModes && this.contentModes == contentModes
      ensures fresh(buttons) && fresh(contents) && buttons[..] == buttonFlags && contents[..] == contentFlags
    {
      this.buttonModes := buttonModes;
      this.contentModes := contentModes;
      buttons := new bool[|buttonFlags|](i requires 0 <= i < |buttonFlags| => buttonFlags[i]);
      contents := new bool[|contentFlags|](i requires 0 <= i < |contentFlags| => contentFlags[i]);
      currentMode := "academic";
    }

    /** switchMode (app.js:1057-1070): asking for the current mode changes
        nothing; any other mode becomes current, and exactly the buttons
        and panels whose `data-mode` is that mode are active. */
    method SwitchMode(mode: string)
      requires Valid()
      modifies this, buttons, contents
      ensures Valid()
      ensures mode == old(currentMode) ==>
                currentMode == old(currentMode) && buttons[..] == old(buttons[..]) && contents[..] == old(contents[..])
      ensures mode != old(currentMode) ==>
                && currentMode == mode
                && (forall i :: 0 <= i < buttons.Length ==> buttons[i] == (buttonModes[i] == mode))
                && (forall i :: 0 <= i < contents.Length ==> contents[i] == (contentModes[i] == mode))
                && CountTrue(buttons[..]) == multiset(buttonModes)[mode]
                && CountTrue(contents[..]) == multiset(contentModes)[mode]
    {
      if mode == currentMode {
        return;
      }
      MarkMatching(buttons, buttonModes, mode);
      MarkMatching(contents, contentModes, mode);
      currentMode := mode;
    }
  }

  // -------------------------------------------------------- animate once

  /** One IntersectionObserver entry: the observed element and whether it
      is intersecting. */
  datatype Entry = Entry(target: nat, isIntersecting: bool)

  /** The elements a batch of entries starts animating, in order, given
      the set already animated (app.js:1196-1201). */
  function NewlyAnimated(animated: set<nat>, entries: seq<Entry>): seq<nat>
    decreases |entries|
  {
    if entries == [] then []
    else
      var e := entries[0];
      if e.isIntersecting && e.target !in animated then [e.target] + NewlyAnimated(animated + {e.target}, entries[1..])
      else NewlyAnimated(animated, entries[1..])
  }

  /** Each element starts at most once, never one already animated, only
      an intersecting one, and every intersecting element not yet
      animated does start. */
  lemma {:induction false} NewlyAnimatedSpec(animated: set<nat>, entries: seq<Entry>)
    ensures var started := NewlyAnimated(animated, entries);
      && (forall i, j :: 0 <= i < j < |started| ==> started[i] != started[j])
      && (forall x <- started :: x !in animated && Entry(x, true) in entries)
      && (forall e <- entries :: e.isIntersecting && e.target !in animated ==> e.target in started)
    decreases |entries|
  {
    if entries != [] {
      var e := entries[0];
      if e.isIntersecting && e.target !in animated {
        NewlyAnimatedSpec(animated + {e.target}, entries[1..]);
        var rest := NewlyAnimated(animated + {e.target}, entries[1..]);
        assert NewlyAnimated(animated, entries) == [e.target] + rest;
        forall x <- rest ensures Entry(x, true) in entries {
          assert Entry(x, true) in entries[1..];
        }
      } else {
        NewlyAnimatedSpec(animated, entries[1..]);
        var rest := NewlyAnimated(animated, entries[1..]);
        forall x <- rest ensures Entry(x, true) in entries {
          assert Entry(x, true) in entries[1..];
        }
      }
    }
  }

  /** ScrollAnimationController's `animatedElements` set. */
  class ScrollAnimations {
    var animatedElements: set<nat>

    constructor ()
      ensures animatedElements == {}
    {
      animatedElements := {};
    }

    /** The observer callback: every intersecting entry whose element was
        not animated yet is animated and remembered. Returns the elements
        started, in entry order. */
    method Observe(entries: seq<Entry>) returns (started: seq<nat>)
      modifies this
      ensures started == NewlyAnimated(old(animatedElements), entries)
      ensures animatedElements == old(animatedElements) + (set x <- started)
    {
      started := [];
      var i := 0;
      while i < |entries|
        invariant 0 <= i <= |entries|
        invariant started + NewlyAnimated(animatedElements, entries[i..]) == NewlyAnimated(old(animatedElements), entries)
        invariant animatedElements == old(animatedElements) + (set x <- started)
      {
        var e := entries[i];
        assert entries[i..][1..] == entries[i + 1..];
        if e.isIntersecting && e.target !in animatedElements {
          started := started + [e.target];
          animatedElements := animatedElements + {e.target};
        }
        i := i + 1;
      }
    }
  }

  /** When every intersecting element is already animated, nothing
      starts. */
  lemma {:induction false} NothingNewStarts(animated: set<nat>, entries: seq<Entry>)
    requires forall e <- entries :: e.isIntersecting ==> e.target in animated
    ensures NewlyAnimated(animated, entries) == []
    decreases |entries|
  {
    if entries != [] {
      assert entries[0] in entries;
      NothingNewStarts(animated, entries[1..]);
    }
  }

  /** Feeding the same entries again starts nothing: elements animate
      once. */
  lemma AnimateOnce(animated: set<nat>, entries: seq<Entry>)
    ensures var started := NewlyAnimated(animated, entries);
      NewlyAnimated(animated + (set x <- started), entries) == []
  {
    NewlyAnimatedSpec(animated, entries);
    NothingNewStarts(animated + (set x <- NewlyAnimated(animated, entries)), entries);
  }
}

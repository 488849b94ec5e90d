/** The gallery's one-dimensional inertial carousel: a continuous scroll
    position and a velocity, driven by drag moves and by a per-frame physics
    tick (friction, a spring toward the nearest index, exact settling and a
    constant nudge back from either end), and the film-strip placement of
    every card derived from the scroll position. */
module Carousel {
  import opened Types

  const FRICTION: real := 0.92
  const SPRING: real := 0.05
  /** Pixels of horizontal drag per index of scroll. */
  const DRAG_SCALE: real := 300.0
  /** Velocity added or removed per tick beyond either end. */
  const BOUNCE: real := 0.05
  /** Below this speed and distance the carousel snaps onto the index. */
  const SETTLE: real := 0.001

  /** JavaScript's `Math.round`: the nearest integer, halves rounding up. */
  function Round(x: real): (n: int)
    ensures n as real - 0.5 <= x < n as real + 0.5
  {
    (x + 0.5).Floor
  }

  /** The physics and drag refs of the component. `lastX` is the last
      pointer position seen during a drag. */
  datatype CarouselState = CarouselState(progress: real, velocity: real, lastX: real, interacting: bool)

  /** The settling condition of a tick: the damped, spring-pulled velocity
      and the distance to the nearest index are both below SETTLE. */
  predicate Settles(c: CarouselState) {
    Abs(FRICTION * c.velocity + SPRING * (Round(c.progress) as real - c.progress)) < SETTLE
    && Abs(Round(c.progress) as real - c.progress) < SETTLE
  }

  /** The momentum-and-snap part of a tick taken while nobody drags. */
  function Coast(c: CarouselState): (r: CarouselState)
    ensures r.lastX == c.lastX && r.interacting == c.interacting
    // Either the new velocity was integrated into the position ...
    ensures r.progress == c.progress + r.velocity
         // ... or the carousel settled exactly onto the nearest index.
         || (r.progress == Round(c.progress) as real && r.velocity == 0.0)
    ensures !Settles(c) ==>
              r.velocity == FRICTION * c.velocity + SPRING * (Round(c.progress) as real - c.progress)
    ensures !Settles(c) ==> r.progress == c.progress + r.velocity
    ensures Settles(c) ==> r.progress == Round(c.progress) as real && r.velocity == 0.0
  {
    var v := c.velocity * FRICTION;
    var target := Round(c.progress);
    var diff := target as real - c.progress;
    var v' := v + diff * SPRING;
    var p' := c.progress + v';
    if Abs(v') < SETTLE && Abs(diff) < SETTLE then
      c.(progress := target as real, velocity := 0.0)
    else
      c.(progress := p', velocity := v')
  }

  /** The boundary nudge, evaluated on the position after the physics step;
      it changes the velocity only, and never clamps the position. */
  function Nudge(progress: real, velocity: real, count: nat): (v: real)
    ensures progress < -0.5 ==> v == velocity + BOUNCE
    ensures progress > count as real - 0.5 && progress >= -0.5 ==> v == velocity - BOUNCE
    ensures -0.5 <= progress <= count as real - 0.5 ==> v == velocity
    ensures Abs(v - velocity) <= BOUNCE
  {
    if progress < -0.5 then velocity + BOUNCE
    else if progress > count as real - 0.5 then velocity - BOUNCE
    else velocity
  }

  /** One animation frame of the physics, for a gallery of `count` images. */
  function Tick(c: CarouselState, count: nat, isOpen: bool): (r: CarouselState)
    ensures !isOpen ==> r == c
    ensures r.lastX == c.lastX && r.interacting == c.interacting
    ensures isOpen && c.interacting ==> r.progress == c.progress
    ensures isOpen && c.interacting ==> r.velocity == Nudge(c.progress, c.velocity, count)
    ensures isOpen && !c.interacting ==> r == Coast(c).(velocity := Nudge(Coast(c).progress, Coast(c).velocity, count))
  {
    if !isOpen then c
    else
      var c1 := if c.interacting then c else Coast(c);
      c1.(velocity := Nudge(c1.progress, c1.velocity, count))
  }

  /** Pointer or touch press: a drag starts, and the momentum is dropped. */
  function Start(c: CarouselState, clientX: real): (r: CarouselState)
    ensures r == CarouselState(c.progress, 0.0, clientX, true)
  {
    c.(interacting := true, lastX := clientX, velocity := 0.0)
  }

  /** Pointer or touch move: while dragging, the scroll position follows the
      pointer in the opposite direction, one index per DRAG_SCALE pixels. */
  function Move(c: CarouselState, clientX: real): (r: CarouselState)
    ensures !c.interacting ==> r == c
    ensures c.interacting ==> r == c.(progress := c.progress - (clientX - c.lastX) / DRAG_SCALE, lastX := clientX)
  {
    if !c.interacting then c
    else
      var delta := clientX - c.lastX;
      var move := -(delta / DRAG_SCALE);
      c.(lastX := clientX, progress := c.progress + move)
  }

  /** Pointer or touch release: the physics tick takes over. */
  function End(c: CarouselState): (r: CarouselState)
    ensures r == c.(interacting := false)
  {
    c.(interacting := false)
  }

  /** A sequence of moves, in order. */
  function Moves(c: CarouselState, xs: seq<real>): CarouselState
    decreases |xs|
  {
    if xs == [] then c else Moves(Move(c, xs[0]), xs[1..])
  }

  /** The drag contribution telescopes: however many moves, the position
      changes by the distance from the last seen pointer position to the
      last move, over DRAG_SCALE, and nothing else changes. */
  lemma {:induction false} MovesTelescope(c: CarouselState, xs: seq<real>)
    requires c.interacting && xs != []
    ensures Moves(c, xs) == c.(progress := c.progress - (xs[|xs| - 1] - c.lastX) / DRAG_SCALE,
                               lastX := xs[|xs| - 1])
    decreases |xs|
  {
    var c1 := Move(c, xs[0]);
    if |xs| > 1 {
      MovesTelescope(c1, xs[1..]);
      var last := xs[|xs| - 1];
      assert xs[1..][|xs[1..]| - 1] == last;
      calc {
        c1.progress - (last - c1.lastX) / DRAG_SCALE;
        c.progress - (xs[0] - c.lastX) / DRAG_SCALE - (last - xs[0]) / DRAG_SCALE;
        c.progress - (last - c.lastX) / DRAG_SCALE;
      }
    }
  }

  /** Moves while no drag is in progress are ignored. */
  lemma {:induction false} MovesIgnoredWhenIdle(c: CarouselState, xs: seq<real>)
    requires !c.interacting
    ensures Moves(c, xs) == c
    decreases |xs|
  {
    if xs != [] {
      MovesIgnoredWhenIdle(Move(c, xs[0]), xs[1..]);
    }
  }

  /** A whole drag session: press at x0, moves, release. The position moves
      by exactly -(xn - x0) / DRAG_SCALE, the velocity is zero and the drag
      is over; a session that ends where it started leaves the position as it was. */
  lemma DragSession(c: CarouselState, x0: real, xs: seq<real>)
    requires xs != []
    ensures End(Moves(Start(c, x0), xs)) ==
              CarouselState(c.progress - (xs[|xs| - 1] - x0) / DRAG_SCALE, 0.0, xs[|xs| - 1], false)
    ensures xs[|xs| - 1] == x0 ==> End(Moves(Start(c, x0), xs)).progress == c.progress
  {
    MovesTelescope(Start(c, x0), xs);
  }

  /** A resting carousel on a valid index is a fixed point of the tick. */
  lemma RestingIsFixed(k: int, count: nat, lastX: real)
    requires 0 <= k < count
    ensures Tick(CarouselState(k as real, 0.0, lastX, false), count, true) == CarouselState(k as real, 0.0, lastX, false)
  {
    assert Round(k as real) == k;
  }

  // ---------------------------------------------------------------------------
  // Card placement

  /** The style of one card: translation, depth, yaw in degrees, scale,
      opacity and stacking order. */
  datatype CardPlacement = CardPlacement(x: real, z: real, rotateY: real, scale: real, opacity: real, zIndex: int)

  /** The film-strip placement of a card `offset` indices from the scroll position. */
  function Placement(offset: real): (c: CardPlacement)
    ensures 0.6 <= c.scale <= 1.0 && 0.3 <= c.opacity <= 1.0 && c.zIndex <= 100
    ensures c.z <= 0.0 && c.x * offset >= 0.0
    ensures offset == 0.0 ==> c == CardPlacement(0.0, 0.0, 0.0, 1.0, 1.0, 100)
  {
    var absOffset := Abs(offset);
    var z := -absOffset * 150.0;
    var x := offset * 260.0;
    var rotateY := offset * -25.0;
    var scale := if 1.0 - absOffset * 0.2 > 0.6 then 1.0 - absOffset * 0.2 else 0.6;
    var opacity := if 1.0 - absOffset * 0.4 > 0.3 then 1.0 - absOffset * 0.4 else 0.3;
    var zIndex := 100 - Round(absOffset);
    CardPlacement(x, z, rotateY, scale, opacity, zIndex)
  }

  /** Cards either side of the focus mirror each other: depth, scale, opacity
      and stacking agree, translation and yaw change sign. */
  lemma PlacementSymmetric(offset: real)
    ensures Placement(-offset) == Placement(offset).(x := -Placement(offset).x, rotateY := -Placement(offset).rotateY)
  {
    assert Abs(-offset) == Abs(offset);
  }

  /** Cards further from the focus are never larger, brighter or stacked higher. */
  lemma {:induction false} PlacementRecedes(a: real, b: real)
    requires Abs(a) <= Abs(b)
    ensures Placement(b).scale <= Placement(a).scale
    ensures Placement(b).opacity <= Placement(a).opacity
    ensures Placement(b).zIndex <= Placement(a).zIndex
    ensures Placement(b).z <= Placement(a).z
  {
    FloorMonotone(Abs(a) + 0.5, Abs(b) + 0.5);
  }

  lemma FloorMonotone(x: real, y: real)
    requires x <= y
    ensures x.Floor <= y.Floor
  {
  }

  // ---------------------------------------------------------------------------
  // The component's refs and the track's card styles, updated in place

  class Gallery {
    /** The number of images (and of cards in the track). */
    const imageCount: nat
    /** The style each card was last given; None before the first frame. */
    const cards: array<Option<CardPlacement>>
    var progress: real
    var velocity: real
    var lastX: real
    var isInteracting: bool

    ghost predicate Valid()
      reads this
    {
      cards.Length == imageCount
    }

    function State(): CarouselState
      reads this
    {
      CarouselState(progress, velocity, lastX, isInteracting)
    }

    /** The placement every card gets for the current scroll position. */
    ghost predicate Placed()
      reads this, cards
    {
      forall i :: 0 <= i < cards.Length ==> cards[i] == Some(Placement(i as real - progress))
    }

    constructor (imageCount: nat)
      ensures Valid() && fresh(cards)
      ensures this.imageCount == imageCount
      ensures State() == CarouselState(0.0, 0.0, 0.0, false)
      ensures forall i :: 0 <= i < cards.Length ==> cards[i] == None
    {
      this.imageCount := imageCount;
      cards := new Option<CardPlacement>[imageCount](_ => None);
      progress, velocity, lastX, isInteracting := 0.0, 0.0, 0.0, false;
    }

    /** One animation frame: the physics tick, then the style of every card. */
    method Animate(isOpen: bool)
      requires Valid()
      modifies this, cards
      ensures Valid()
      ensures State() == Tick(old(State()), imageCount, isOpen)
      ensures isOpen ==> Placed()
      ensures !isOpen ==> cards[..] == old(cards[..])
    {
      if !isOpen {
        return;
      }
      if !isInteracting {
        velocity := velocity * FRICTION;
        var targetIndex := Round(progress);
        var diff := targetIndex as real - progress;
        velocity := velocity + diff * SPRING;
        progress := progress + velocity;
        if Abs(velocity) < SETTLE && Abs(diff) < SETTLE {
          progress := targetIndex as real;
          velocity := 0.0;
        }
      }
      if progress < -0.5 {
        velocity := velocity + BOUNCE;
      } else if progress > imageCount as real - 0.5 {
        velocity := velocity - BOUNCE;
      }
      for i := 0 to cards.Length
        modifies cards
        invariant forall k :: 0 <= k < i ==> cards[k] == Some(Placement(k as real - progress))
      {
        cards[i] := Some(Placement(i as real - progress));
      }
    }

    method HandleStart(clientX: real)
      modifies this
      ensures State() == Start(old(State()), clientX)
    {
      isInteracting := true;
      lastX := clientX;
      velocity := 0.0;
    }

    method HandleMove(clientX: real)
      modifies this
      ensures State() == Move(old(State()), clientX)
    {
      if !isInteracting {
        return;
      }
      var delta := clientX - lastX;
      lastX := clientX;
      var move := -(delta / DRAG_SCALE);
      progress := progress + move;
    }

    method HandleEnd()
      modifies this
      ensures State() == End(old(State()))
    {
      isInteracting := false;
    }
  }

  /** Five images, resting on the first: two drags of 300 pixels to the left
      reach index 2, and after release the carousel stays there. */
  method DragScenario()
  {
    var g := new Gallery(5);
    g.HandleStart(600.0);
    g.HandleMove(300.0);
    g.HandleMove(0.0);
    assert g.progress == 2.0;
    g.HandleEnd();
    RestingIsFixed(2, 5, 0.0);
    g.Animate(true);
    assert g.progress == 2.0 && g.velocity == 0.0;
  }
}

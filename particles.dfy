/** The particle group animator. Every group keeps a live position buffer
    of three reals per particle; each frame, every particle moves toward its
    target for the current mode by an exponential-decay step, drifts
    vertically while scattered (sparkles always), and emits a transform
    (position, rotation, scale) for the renderer. The gift buffer is shared
    by the gift layer and the two ribbon layers, so it is stepped by each of
    them in turn. The top bow eases its scale and height toward
    mode-dependent targets. */
module Particles {
  import opened Types

  /** A per-instance transform handed to the renderer. */
  datatype Transform = Transform(position: Vec3, rotation: Vec3, scale: Vec3)

  /** The layer's extra transform: none, or one of the two ribbon bands. */
  datatype Override = Plain | RibbonAcross | RibbonAlong

  /** The arguments of one layer step besides the data and the buffers. */
  datatype LayerParams = LayerParams(mode: TreeState, delta: real, speedMult: real, clock: real, isSparkle: bool)

  /** The product a * b, kept as a term of its own so that proofs about
      repeated steps can rewrite its factors. */
  function Mul(a: real, b: real): (r: real)
    ensures 0.0 <= a && 0.0 <= b <= 1.0 ==> 0.0 <= r <= a
    ensures a <= 0.0 && 0.0 <= b <= 1.0 ==> a <= r <= 0.0
  {
    a * b
  }

  /** Linear interpolation from a toward b by the fraction t. */
  function Lerp(a: real, b: real, t: real): (r: real)
    ensures r - b == Mul(a - b, 1.0 - t)
    ensures 0.0 <= t <= 1.0 && a <= b ==> a <= r <= b
    ensures 0.0 <= t <= 1.0 && b <= a ==> b <= r <= a
  {
    a + Mul(b - a, t)
  }

  /** three.js `Vector3.lerp`, coordinate by coordinate. */
  function LerpVec(a: Vec3, b: Vec3, t: real): (r: Vec3)
    ensures r == Vec3(Lerp(a.x, b.x, t), Lerp(a.y, b.y, t), Lerp(a.z, b.z, t))
  {
    Vec3(a.x + (b.x - a.x) * t, a.y + (b.y - a.y) * t, a.z + (b.z - a.z) * t)
  }

  function Uniform(s: real): Vec3 {
    Vec3(s, s, s)
  }

  /** The position a particle moves toward in the given mode. */
  function Target(d: ParticleData, mode: TreeState): Vec3 {
    if mode == TreeShape then d.treePosition else d.scatterPosition
  }

  /** The interpolation fraction of one step. Converging to the tree is twice
      as fast as dispersing, except for sparkles, whose rate does not depend
      on the mode. Nothing caps it at 1. */
  function LerpRate(p: LayerParams): (rate: real)
    ensures rate == (if !p.isSparkle && p.mode == TreeShape then 2.0 else 1.0) * p.speedMult * p.delta
  {
    if p.isSparkle then p.speedMult * p.delta
    else if p.mode == TreeShape then p.speedMult * 2.0 * p.delta
    else p.speedMult * p.delta
  }

  /** The argument of the vertical-drift sine for particle d. */
  function FloatPhase(d: ParticleData, p: LayerParams): real {
    p.clock * (if p.isSparkle then 0.5 else 1.0) + d.id as real
  }

  /** The vertical drift added after the step: none for a non-sparkle in
      tree shape, at most 0.001 for other particles while scattered and at
      most 0.02 for sparkles. */
  function FloatOffset(d: ParticleData, p: LayerParams, sin: real -> real): (dy: real)
    ensures p.mode == TreeShape && !p.isSparkle ==> dy == 0.0
    ensures -1.0 <= sin(FloatPhase(d, p)) <= 1.0 ==>
              Abs(dy) <= (if p.isSparkle then 0.02 else 0.001) * Abs(sin(FloatPhase(d, p)))
  {
    if p.mode == Scattered || p.isSparkle then
      var floatSpeed := if p.isSparkle then 0.2 else 0.01;
      sin(FloatPhase(d, p)) * floatSpeed * 0.1
    else 0.0
  }

  /** m lies in the closed interval spanned by a and b. */
  predicate Between(a: real, m: real, b: real) {
    (a <= m <= b) || (b <= m <= a)
  }

  /** One step of one particle from its live position `cur`: the horizontal
      coordinates follow the interpolation toward the target, the height the
      interpolation plus the drift. */
  function StepParticle(d: ParticleData, cur: Vec3, p: LayerParams, sin: real -> real): (r: Vec3)
    ensures r.x == Lerp(cur.x, Target(d, p.mode).x, LerpRate(p))
    ensures r.z == Lerp(cur.z, Target(d, p.mode).z, LerpRate(p))
    ensures r.y == Lerp(cur.y, Target(d, p.mode).y, LerpRate(p)) + FloatOffset(d, p, sin)
    // Tree-shape convergence of a non-sparkle: no drift, so every coordinate
    // closes the distance to the target by the factor (1 - rate)
    ensures p.mode == TreeShape && !p.isSparkle ==>
              r.x - d.treePosition.x == Mul(cur.x - d.treePosition.x, 1.0 - LerpRate(p))
              && r.y - d.treePosition.y == Mul(cur.y - d.treePosition.y, 1.0 - LerpRate(p))
              && r.z - d.treePosition.z == Mul(cur.z - d.treePosition.z, 1.0 - LerpRate(p))
    ensures p.mode == TreeShape && !p.isSparkle && 0.0 <= LerpRate(p) <= 1.0 ==>
              Between(cur.x, r.x, d.treePosition.x) && Between(cur.y, r.y, d.treePosition.y)
              && Between(cur.z, r.z, d.treePosition.z)
    ensures p.mode == TreeShape && !p.isSparkle && cur == d.treePosition ==> r == cur
  {
    var q := LerpVec(cur, Target(d, p.mode), LerpRate(p));
    q.(y := q.y + FloatOffset(d, p, sin))
  }

  /** The sparkle scale factor at this frame. */
  function Pulse(d: ParticleData, clock: real, sin: real -> real): (k: real)
    ensures -1.0 <= sin(clock * 2.0 + d.id as real) <= 1.0 ==> 0.4 <= k <= 1.0
  {
    sin(clock * 2.0 + d.id as real) * 0.3 + 0.7
  }

  /** The transform emitted for a particle at its new live position `pos`. */
  function ParticleTransform(d: ParticleData, pos: Vec3, p: LayerParams, extra: Override, sin: real -> real): (t: Transform)
    ensures t.position == pos
    ensures extra == Plain && p.isSparkle ==> t.scale == Uniform(d.scale * Pulse(d, p.clock, sin))
    ensures extra == Plain && !p.isSparkle ==> t.scale == Uniform(d.scale)
    ensures extra == RibbonAcross ==> t.scale == Vec3(d.scale * 0.2, d.scale * 1.01, d.scale * 1.01)
    ensures extra == RibbonAlong ==> t.scale == Vec3(d.scale * 1.01, d.scale * 1.01, d.scale * 0.2)
    // Tumbling while scattered and for sparkles; otherwise mostly upright
    ensures p.mode == Scattered || p.isSparkle ==>
              t.rotation == Vec3(d.rotation.0 + p.clock * 0.2, d.rotation.1 + p.clock * 0.1, d.rotation.2)
    ensures p.mode == TreeShape && !p.isSparkle ==>
              t.rotation == Vec3(d.rotation.0 * 0.1, d.rotation.1, d.rotation.2 * 0.1)
  {
    var scale := if p.isSparkle then Uniform(d.scale * Pulse(d, p.clock, sin)) else Uniform(d.scale);
    var rotation :=
      if p.mode == Scattered || p.isSparkle then
        Vec3(d.rotation.0 + p.clock * 0.2, d.rotation.1 + p.clock * 0.1, d.rotation.2)
      else
        Vec3(d.rotation.0 * 0.1, d.rotation.1, d.rotation.2 * 0.1);
    var scale' :=
      match extra
      case Plain => scale
      case RibbonAcross => Vec3(d.scale * 0.2, d.scale * 1.01, d.scale * 1.01)
      case RibbonAlong => Vec3(d.scale * 1.01, d.scale * 1.01, d.scale * 0.2);
    Transform(pos, rotation, scale')
  }

  /** In tree shape a non-sparkle's orientation does not depend on time;
      otherwise it turns at a constant rate about the first two axes. */
  lemma RotationOverTime(d: ParticleData, pos: Vec3, p: LayerParams, extra: Override, sin: real -> real, later: real)
    ensures var t1 := ParticleTransform(d, pos, p, extra, sin);
            var t2 := ParticleTransform(d, pos, p.(clock := later), extra, sin);
            (p.mode == TreeShape && !p.isSparkle ==> t2.rotation == t1.rotation)
            && (p.mode == Scattered || p.isSparkle ==>
                  t2.rotation.x - t1.rotation.x == (later - p.clock) * 0.2
                  && t2.rotation.y - t1.rotation.y == (later - p.clock) * 0.1
                  && t2.rotation.z == t1.rotation.z)
  {
  }

  // ---------------------------------------------------------------------------
  // Position buffers: three reals per particle

  function ReadVec(buf: seq<real>, i: nat): Vec3
    requires 3 * i + 2 < |buf|
  {
    Vec3(buf[3 * i], buf[3 * i + 1], buf[3 * i + 2])
  }

  function WriteVec(buf: seq<real>, i: nat, v: Vec3): (r: seq<real>)
    requires 3 * i + 2 < |buf|
    ensures |r| == |buf| && ReadVec(r, i) == v
    ensures forall j :: 0 <= j < |buf| && j != 3 * i && j != 3 * i + 1 && j != 3 * i + 2 ==> r[j] == buf[j]
  {
    buf[3 * i := v.x][3 * i + 1 := v.y][3 * i + 2 := v.z]
  }

  /** The buffer after the first k particles of a layer were stepped, in
      order: their slots hold the stepped positions, later slots are untouched. */
  function StepPrefix(data: seq<ParticleData>, buf: seq<real>, k: nat, p: LayerParams, sin: real -> real): (r: seq<real>)
    requires k <= |data| && 3 * |data| <= |buf|
    ensures |r| == |buf|
    ensures forall j :: 3 * k <= j < |buf| ==> r[j] == buf[j]
    ensures forall i :: 0 <= i < k ==> ReadVec(r, i) == StepParticle(data[i], ReadVec(buf, i), p, sin)
    decreases k
  {
    if k == 0 then buf
    else
      var prev := StepPrefix(data, buf, k - 1, p, sin);
      WriteVec(prev, k - 1, StepParticle(data[k - 1], ReadVec(buf, k - 1), p, sin))
  }

  /** The buffer after one whole layer step. */
  function StepBuffer(data: seq<ParticleData>, buf: seq<real>, p: LayerParams, sin: real -> real): (r: seq<real>)
    requires 3 * |data| <= |buf|
    ensures |r| == |buf|
    ensures forall j :: 3 * |data| <= j < |buf| ==> r[j] == buf[j]
    ensures forall i :: 0 <= i < |data| ==> ReadVec(r, i) == StepParticle(data[i], ReadVec(buf, i), p, sin)
  {
    StepPrefix(data, buf, |data|, p, sin)
  }

  /** A layer whose mesh is not mounted leaves its buffer alone. */
  function StepIf(mounted: bool, data: seq<ParticleData>, buf: seq<real>, p: LayerParams, sin: real -> real): (r: seq<real>)
    requires 3 * |data| <= |buf|
    ensures |r| == |buf|
    ensures !mounted ==> r == buf
  {
    if mounted then StepBuffer(data, buf, p, sin) else buf
  }

  /** The transforms the first k particles of a layer step emit, in order,
      each at its stepped position. */
  function EmittedPrefix(data: seq<ParticleData>, buf: seq<real>, k: nat, p: LayerParams, extra: Override,
                         sin: real -> real): (ts: seq<Transform>)
    requires k <= |data| && 3 * |data| <= |buf|
    ensures |ts| == k
    ensures forall i :: 0 <= i < k ==>
              ts[i] == ParticleTransform(data[i], StepParticle(data[i], ReadVec(buf, i), p, sin), p, extra, sin)
    decreases k
  {
    if k == 0 then []
    else
      EmittedPrefix(data, buf, k - 1, p, extra, sin)
      + [ParticleTransform(data[k - 1], StepParticle(data[k - 1], ReadVec(buf, k - 1), p, sin), p, extra, sin)]
  }

  /** The transforms a whole layer step emits: one per particle, each at the
      position the step wrote into the buffer. */
  function LayerTransforms(data: seq<ParticleData>, buf: seq<real>, p: LayerParams, extra: Override, sin: real -> real): (ts: seq<Transform>)
    requires 3 * |data| <= |buf|
    ensures |ts| == |data|
    ensures forall i :: 0 <= i < |data| ==> ts[i].position == ReadVec(StepBuffer(data, buf, p, sin), i)
    ensures forall i :: 0 <= i < |data| ==>
              ts[i] == ParticleTransform(data[i], StepParticle(data[i], ReadVec(buf, i), p, sin), p, extra, sin)
  {
    EmittedPrefix(data, buf, |data|, p, extra, sin)
  }

  function EmitIf(mounted: bool, data: seq<ParticleData>, buf: seq<real>, p: LayerParams, extra: Override, sin: real -> real): (r: Option<seq<Transform>>)
    requires 3 * |data| <= |buf|
    ensures mounted <==> r.Some?
    ensures mounted ==> |r.value| == |data|
    ensures mounted ==> forall i :: 0 <= i < |data| ==>
              r.value[i] == ParticleTransform(data[i], StepParticle(data[i], ReadVec(buf, i), p, sin), p, extra, sin)
  {
    if mounted then Some(LayerTransforms(data, buf, p, extra, sin)) else None
  }

  /** Writes each particle's starting position, its target for the mode at
      mount, into its three slots; the rest of the buffer is untouched. */
  method InitPositions(data: seq<ParticleData>, buf: array<real>, mode: TreeState)
    requires 3 * |data| <= buf.Length
    modifies buf
    ensures forall i :: 0 <= i < |data| ==> ReadVec(buf[..], i) == Target(data[i], mode)
    ensures forall j :: 3 * |data| <= j < buf.Length ==> buf[j] == old(buf[j])
  {
    for i := 0 to |data|
      invariant forall k :: 0 <= k < i ==> ReadVec(buf[..], k) == Target(data[k], mode)
      invariant forall j :: 3 * i <= j < buf.Length ==> buf[j] == old(buf[j])
    {
      var start := if mode == TreeShape then data[i].treePosition else data[i].scatterPosition;
      buf[i * 3] := start.x;
      buf[i * 3 + 1] := start.y;
      buf[i * 3 + 2] := start.z;
      assert ReadVec(buf[..], i) == Target(data[i], mode);
    }
  }

  /** Stores a position into particle i's three slots. */
  method WriteSlot(buf: array<real>, i: nat, v: Vec3)
    requires 3 * i + 2 < buf.Length
    modifies buf
    ensures buf[..] == WriteVec(old(buf[..]), i, v)
  {
    buf[i * 3] := v.x;
    buf[i * 3 + 1] := v.y;
    buf[i * 3 + 2] := v.z;
  }

  /** The per-particle part of a layer step: ease toward the target, then
      add the vertical drift. */
  method MoveParticle(d: ParticleData, current: Vec3, p: LayerParams, sin: real -> real) returns (next: Vec3)
    ensures next == StepParticle(d, current, p, sin)
  {
    var target := if p.mode == TreeShape then d.treePosition else d.scatterPosition;
    var lerpSpeed := if p.isSparkle then p.speedMult * p.delta
                     else if p.mode == TreeShape then p.speedMult * 2.0 * p.delta
                     else p.speedMult * p.delta;
    assert lerpSpeed == LerpRate(p) && target == Target(d, p.mode);
    next := LerpVec(current, target, lerpSpeed);
    ghost var lerped := next;
    if p.mode == Scattered || p.isSparkle {
      var floatSpeed := if p.isSparkle then 0.2 else 0.01;
      next := next.(y := next.y + sin(p.clock * (if p.isSparkle then 0.5 else 1.0) + d.id as real) * floatSpeed * 0.1);
    }
    assert next == lerped.(y := lerped.y + FloatOffset(d, p, sin));
  }

  /** Loads particle i's three slots. */
  method ReadSlot(buf: array<real>, i: nat) returns (v: Vec3)
    requires 3 * i + 2 < buf.Length
    ensures v == ReadVec(buf[..], i)
  {
    v := Vec3(buf[i * 3], buf[i * 3 + 1], buf[i * 3 + 2]);
  }

  /** One layer step in place. Without a mounted mesh it does nothing;
      otherwise it rewrites the first 3 * |data| slots of the buffer with the
      stepped positions and emits one transform per particle. */
  method AnimateLayer(mounted: bool, data: seq<ParticleData>, buf: array<real>, p: LayerParams,
                      extra: Override, sin: real -> real)
    returns (emitted: Option<seq<Transform>>)
    requires 3 * |data| <= buf.Length
    modifies buf
    ensures buf[..] == StepIf(mounted, data, old(buf[..]), p, sin)
    ensures emitted == EmitIf(mounted, data, old(buf[..]), p, extra, sin)
  {
    if !mounted {
      return None;
    }
    var out := StepLayer(data, buf, p, extra, sin);
    emitted := Some(out);
  }

  /** The particle loop of a layer step. */
  method StepLayer(data: seq<ParticleData>, buf: array<real>, p: LayerParams, extra: Override, sin: real -> real)
    returns (out: seq<Transform>)
    requires 3 * |data| <= buf.Length
    modifies buf
    ensures buf[..] == StepBuffer(data, old(buf[..]), p, sin)
    ensures out == LayerTransforms(data, old(buf[..]), p, extra, sin)
  {
    ghost var before := buf[..];
    out := [];
    for i := 0 to |data|
      invariant buf[..] == StepPrefix(data, before, i, p, sin)
      invariant out == EmittedPrefix(data, before, i, p, extra, sin)
    {
      var d := data[i];
      var current := ReadSlot(buf, i);
      assert current == ReadVec(before, i);
      current := MoveParticle(d, current, p, sin);
      ghost var prev := buf[..];
      WriteSlot(buf, i, current);
      assert StepPrefix(data, before, i + 1, p, sin) == WriteVec(prev, i, current);
      out := out + [ParticleTransform(d, current, p, extra, sin)];
    }
  }

  /** Tree-shape convergence over several steps: after n steps with a
      constant rate, a non-sparkle's distance to its target on each axis is
      the starting distance times (1 - rate)^n. */
  function Steps(d: ParticleData, cur: Vec3, p: LayerParams, sin: real -> real, n: nat): Vec3
    decreases n
  {
    if n == 0 then cur else StepParticle(d, Steps(d, cur, p, sin, n - 1), p, sin)
  }

  function Power(q: real, n: nat): real
    decreases n
  {
    if n == 0 then 1.0 else q * Power(q, n - 1)
  }

  lemma {:induction false} StepsContract(d: ParticleData, cur: Vec3, p: LayerParams, sin: real -> real, n: nat)
    requires p.mode == TreeShape && !p.isSparkle
    ensures var r := Steps(d, cur, p, sin, n);
            var q := Power(1.0 - LerpRate(p), n);
            r.x - d.treePosition.x == Mul(cur.x - d.treePosition.x, q)
            && r.y - d.treePosition.y == Mul(cur.y - d.treePosition.y, q)
            && r.z - d.treePosition.z == Mul(cur.z - d.treePosition.z, q)
    decreases n
  {
    if n > 0 {
      StepsContract(d, cur, p, sin, n - 1);
      var prev := Steps(d, cur, p, sin, n - 1);
      var q := 1.0 - LerpRate(p);
      var t := d.treePosition;
      ContractStep(prev.x - t.x, Steps(d, cur, p, sin, n).x - t.x, cur.x - t.x, q, n);
      ContractStep(prev.y - t.y, Steps(d, cur, p, sin, n).y - t.y, cur.y - t.y, q, n);
      ContractStep(prev.z - t.z, Steps(d, cur, p, sin, n).z - t.z, cur.z - t.z, q, n);
    }
  }

  /** One more contraction by q of a distance already contracted by q^(n-1). */
  lemma ContractStep(before: real, after: real, start: real, q: real, n: nat)
    requires n > 0 && before == Mul(start, Power(q, n - 1)) && after == Mul(before, q)
    ensures after == Mul(start, Power(q, n))
  {
  }

  // ---------------------------------------------------------------------------
  // The scene component: five particle groups and seven layers

  /** Which of the seven instanced meshes are mounted (their refs set). */
  datatype Mounted = Mounted(group: bool, needles: bool, ornaments: bool, gifts: bool, ribbon1: bool, ribbon2: bool,
                             baubles: bool, sparkles: bool)

  /** The transforms each layer emitted this frame, None for unmounted ones. */
  datatype FrameOutput = FrameOutput(
    needles: Option<seq<Transform>>, ornaments: Option<seq<Transform>>, baubles: Option<seq<Transform>>,
    gifts: Option<seq<Transform>>, ribbon1: Option<seq<Transform>>, ribbon2: Option<seq<Transform>>,
    sparkles: Option<seq<Transform>>)

  function NeedleParams(mode: TreeState, delta: real, t: real): LayerParams { LayerParams(mode, delta, 1.5, t, false) }
  function OrnamentParams(mode: TreeState, delta: real, t: real): LayerParams { LayerParams(mode, delta, 2.0, t, false) }
  function BaubleParams(mode: TreeState, delta: real, t: real): LayerParams { LayerParams(mode, delta, 2.2, t, false) }
  function GiftParams(mode: TreeState, delta: real, t: real): LayerParams { LayerParams(mode, delta, 1.8, t, false) }
  function SparkleParams(mode: TreeState, delta: real, t: real): LayerParams { LayerParams(mode, delta, 0.5, t, true) }

  /** The gift buffer after one frame: stepped by the gift layer, then by
      each ribbon layer, each time from the positions the previous one left. */
  function GiftFrame(m: Mounted, gifts: seq<ParticleData>, buf: seq<real>, p: LayerParams, sin: real -> real): (r: seq<real>)
    requires 3 * |gifts| <= |buf|
    ensures |r| == |buf|
  {
    StepIf(m.ribbon2, gifts, StepIf(m.ribbon1, gifts, StepIf(m.gifts, gifts, buf, p, sin), p, sin), p, sin)
  }

  /** The number of layers that step the shared gift buffer in one frame. */
  const GIFT_LAYERS: nat := 3

  /** With the three gift layers mounted, one frame steps every gift three
      times, each step from the position the previous layer left. */
  lemma GiftFrameSteps(m: Mounted, gifts: seq<ParticleData>, buf: seq<real>, p: LayerParams,
                       sin: real -> real, i: nat)
    requires 3 * |gifts| <= |buf| && i < |gifts|
    requires m.gifts && m.ribbon1 && m.ribbon2
    ensures ReadVec(GiftFrame(m, gifts, buf, p, sin), i) == Steps(gifts[i], ReadVec(buf, i), p, sin, GIFT_LAYERS)
  {
    var b1 := StepBuffer(gifts, buf, p, sin);
    var b2 := StepBuffer(gifts, b1, p, sin);
    var b3 := StepBuffer(gifts, b2, p, sin);
    assert GiftFrame(m, gifts, buf, p, sin) == b3;
    var d := gifts[i];
    var v0 := ReadVec(buf, i);
    assert Steps(d, v0, p, sin, 1) == ReadVec(b1, i);
    assert Steps(d, v0, p, sin, 2) == ReadVec(b2, i);
    assert Steps(d, v0, p, sin, 3) == ReadVec(b3, i);
  }

  /** Hence, in tree shape, one frame shrinks a gift's distance to its
      target by (1 - rate)^3 on each axis. */
  lemma GiftsStepThrice(m: Mounted, gifts: seq<ParticleData>, buf: seq<real>, p: LayerParams,
                        sin: real -> real, i: nat)
    requires 3 * |gifts| <= |buf| && i < |gifts|
    requires m.gifts && m.ribbon1 && m.ribbon2
    ensures p.mode == TreeShape && !p.isSparkle ==>
              Contracted(ReadVec(GiftFrame(m, gifts, buf, p, sin), i), ReadVec(buf, i), gifts[i].treePosition,
                         Power(1.0 - LerpRate(p), GIFT_LAYERS))
  {
    if p.mode == TreeShape && !p.isSparkle {
      GiftFrameSteps(m, gifts, buf, p, sin, i);
      StepsContracted(gifts[i], ReadVec(buf, i), p, sin, GIFT_LAYERS);
    }
  }

  /** Each coordinate's distance to `target` went from that of `before` to that times `q`. */
  predicate Contracted(after: Vec3, before: Vec3, target: Vec3, q: real)
  {
    after.x - target.x == Mul(before.x - target.x, q)
    && after.y - target.y == Mul(before.y - target.y, q)
    && after.z - target.z == Mul(before.z - target.z, q)
  }

  /** StepsContract stated with `Contracted`. */
  lemma StepsContracted(d: ParticleData, before: Vec3, p: LayerParams, sin: real -> real, n: nat)
    requires p.mode == TreeShape && !p.isSparkle
    ensures Contracted(Steps(d, before, p, sin, n), before, d.treePosition, Power(1.0 - LerpRate(p), n))
  {
    StepsContract(d, before, p, sin, n);
  }

  class ChristmasTree {
    const needles: seq<ParticleData>
    const ornaments: seq<ParticleData>
    const gifts: seq<ParticleData>
    const baubles: seq<ParticleData>
    const sparkles: seq<ParticleData>
    const needlePositions: array<real>
    const ornamentPositions: array<real>
    const giftPositions: array<real>
    const baublePositions: array<real>
    const sparklePositions: array<real>
    /** The group's rotation, eased toward the interaction vector. */
    var rotationX: real
    var rotationY: real

    ghost predicate Valid()
      reads this
    {
      && needlePositions.Length == 3 * |needles|
      && ornamentPositions.Length == 3 * |ornaments|
      && giftPositions.Length == 3 * |gifts|
      && baublePositions.Length == 3 * |baubles|
      && sparklePositions.Length == 3 * |sparkles|
      && needlePositions != ornamentPositions && needlePositions != giftPositions
      && needlePositions != baublePositions && needlePositions != sparklePositions
      && ornamentPositions != giftPositions && ornamentPositions != baublePositions
      && ornamentPositions != sparklePositions
      && giftPositions != baublePositions && giftPositions != sparklePositions
      && baublePositions != sparklePositions
    }

    /** The generated data of the five groups, and zero-filled buffers. */
    constructor (needles: seq<ParticleData>, ornaments: seq<ParticleData>, gifts: seq<ParticleData>,
                 baubles: seq<ParticleData>, sparkles: seq<ParticleData>)
      ensures Valid()
      ensures this.needles == needles && this.ornaments == ornaments && this.gifts == gifts
      ensures this.baubles == baubles && this.sparkles == sparkles
      ensures fresh(needlePositions) && fresh(ornamentPositions) && fresh(giftPositions)
      ensures fresh(baublePositions) && fresh(sparklePositions)
      ensures rotationX == 0.0 && rotationY == 0.0
      ensures forall j :: 0 <= j < needlePositions.Length ==> needlePositions[j] == 0.0
      ensures forall j :: 0 <= j < ornamentPositions.Length ==> ornamentPositions[j] == 0.0
      ensures forall j :: 0 <= j < giftPositions.Length ==> giftPositions[j] == 0.0
      ensures forall j :: 0 <= j < baublePositions.Length ==> baublePositions[j] == 0.0
      ensures forall j :: 0 <= j < sparklePositions.Length ==> sparklePositions[j] == 0.0
    {
      this.needles, this.ornaments, this.gifts, this.baubles, this.sparkles := needles, ornaments, gifts, baubles, sparkles;
      needlePositions := new real[3 * |needles|](_ => 0.0);
      ornamentPositions := new real[3 * |ornaments|](_ => 0.0);
      giftPositions := new real[3 * |gifts|](_ => 0.0);
      baublePositions := new real[3 * |baubles|](_ => 0.0);
      sparklePositions := new real[3 * |sparkles|](_ => 0.0);
      rotationX, rotationY := 0.0, 0.0;
    }

    /** The layout effect at mount: every buffer starts at the targets of the
        mode at that moment. */
    method LayoutEffect(mode: TreeState)
      requires Valid()
      modifies needlePositions, ornamentPositions, giftPositions, baublePositions, sparklePositions
      ensures Valid()
      ensures forall i :: 0 <= i < |needles| ==> ReadVec(needlePositions[..], i) == Target(needles[i], mode)
      ensures forall i :: 0 <= i < |ornaments| ==> ReadVec(ornamentPositions[..], i) == Target(ornaments[i], mode)
      ensures forall i :: 0 <= i < |gifts| ==> ReadVec(giftPositions[..], i) == Target(gifts[i], mode)
      ensures forall i :: 0 <= i < |baubles| ==> ReadVec(baublePositions[..], i) == Target(baubles[i], mode)
      ensures forall i :: 0 <= i < |sparkles| ==> ReadVec(sparklePositions[..], i) == Target(sparkles[i], mode)
    {
      InitPositions(needles, needlePositions, mode);
      InitPositions(ornaments, ornamentPositions, mode);
      InitPositions(gifts, giftPositions, mode);
      InitPositions(baubles, baublePositions, mode);
      InitPositions(sparkles, sparklePositions, mode);
    }

    /** One rendered frame: ease the group toward the interaction vector, then
        step the layers in order (needles, ornaments, baubles, gifts, the two
        ribbons over the gift buffer, sparkles). */
    method Frame(mode: TreeState, delta: real, t: real, mouse: Vec2, m: Mounted, sin: real -> real)
      returns (out: FrameOutput)
      requires Valid()
      modifies this, needlePositions, ornamentPositions, giftPositions, baublePositions, sparklePositions
      ensures Valid()
      ensures m.group ==> rotationY == Lerp(old(rotationY), mouse.x * 0.5, delta * 2.0)
      ensures m.group ==> rotationX == Lerp(old(rotationX), mouse.y * 0.2, delta * 2.0)
      ensures !m.group ==> rotationY == old(rotationY) && rotationX == old(rotationX)
      ensures needlePositions[..] == StepIf(m.needles, needles, old(needlePositions[..]), NeedleParams(mode, delta, t), sin)
      ensures ornamentPositions[..] == StepIf(m.ornaments, ornaments, old(ornamentPositions[..]), OrnamentParams(mode, delta, t), sin)
      ensures baublePositions[..] == StepIf(m.baubles, baubles, old(baublePositions[..]), BaubleParams(mode, delta, t), sin)
      ensures giftPositions[..] == GiftFrame(m, gifts, old(giftPositions[..]), GiftParams(mode, delta, t), sin)
      ensures sparklePositions[..] == StepIf(m.sparkles, sparkles, old(sparklePositions[..]), SparkleParams(mode, delta, t), sin)
      ensures out.needles == EmitIf(m.needles, needles, old(needlePositions[..]), NeedleParams(mode, delta, t), Plain, sin)
      ensures out.ornaments == EmitIf(m.ornaments, ornaments, old(ornamentPositions[..]), OrnamentParams(mode, delta, t), Plain, sin)
      ensures out.baubles == EmitIf(m.baubles, baubles, old(baublePositions[..]), BaubleParams(mode, delta, t), Plain, sin)
      ensures out.sparkles == EmitIf(m.sparkles, sparkles, old(sparklePositions[..]), SparkleParams(mode, delta, t), Plain, sin)
      ensures var g0 := old(giftPositions[..]);
              var gp := GiftParams(mode, delta, t);
              var g1 := StepIf(m.gifts, gifts, g0, gp, sin);
              var g2 := StepIf(m.ribbon1, gifts, g1, gp, sin);
              && out.gifts == EmitIf(m.gifts, gifts, g0, gp, Plain, sin)
              && out.ribbon1 == EmitIf(m.ribbon1, gifts, g1, gp, RibbonAcross, sin)
              && out.ribbon2 == EmitIf(m.ribbon2, gifts, g2, gp, RibbonAlong, sin)
    {
      if m.group {
        var targetRotY := mouse.x * 0.5;
        var targetRotX := mouse.y * 0.2;
        rotationY := (1.0 - delta * 2.0) * rotationY + delta * 2.0 * targetRotY;
        rotationX := (1.0 - delta * 2.0) * rotationX + delta * 2.0 * targetRotX;
      }

      var needleOut := AnimateLayer(m.needles, needles, needlePositions, NeedleParams(mode, delta, t), Plain, sin);
      var ornamentOut := AnimateLayer(m.ornaments, ornaments, ornamentPositions, OrnamentParams(mode, delta, t), Plain, sin);
      var baubleOut := AnimateLayer(m.baubles, baubles, baublePositions, BaubleParams(mode, delta, t), Plain, sin);
      var giftOut := AnimateLayer(m.gifts, gifts, giftPositions, GiftParams(mode, delta, t), Plain, sin);
      var ribbon1Out := AnimateLayer(m.ribbon1, gifts, giftPositions, GiftParams(mode, delta, t), RibbonAcross, sin);
      var ribbon2Out := AnimateLayer(m.ribbon2, gifts, giftPositions, GiftParams(mode, delta, t), RibbonAlong, sin);
      var sparkleOut := AnimateLayer(m.sparkles, sparkles, sparklePositions, SparkleParams(mode, delta, t), Plain, sin);
      out := FrameOutput(needleOut, ornamentOut, baubleOut, giftOut, ribbon1Out, ribbon2Out, sparkleOut);
    }
  }

  // ---------------------------------------------------------------------------
  // The top bow

  datatype BowState = BowState(scale: real, y: real, rotationY: real)

  function BowScaleTarget(mode: TreeState): real { if mode == TreeShape then 1.5 else 0.0 }
  function BowHeightTarget(mode: TreeState): real { if mode == TreeShape then 7.2 else 15.0 }

  /** One frame of the bow: scale and height ease toward the mode's targets
      (three and two times delta per second), and in tree shape it sways
      within 0.05 radians; while scattered its yaw is left as it was. */
  function BowStep(b: BowState, mode: TreeState, delta: real, elapsed: real, sin: real -> real): (r: BowState)
    ensures r.scale - BowScaleTarget(mode) == Mul(b.scale - BowScaleTarget(mode), 1.0 - delta * 3.0)
    ensures r.y - BowHeightTarget(mode) == Mul(b.y - BowHeightTarget(mode), 1.0 - delta * 2.0)
    ensures 0.0 <= delta * 3.0 <= 1.0 && 0.0 <= b.scale <= 1.5 ==> 0.0 <= r.scale <= 1.5
    ensures 0.0 <= delta * 2.0 <= 1.0 && 7.2 <= b.y <= 15.0 ==> 7.2 <= r.y <= 15.0
    ensures mode == TreeShape && -1.0 <= sin(elapsed * 0.5) <= 1.0 ==> -0.05 <= r.rotationY <= 0.05
    ensures mode == Scattered ==> r.rotationY == b.rotationY
  {
    BowState(
      Lerp(b.scale, BowScaleTarget(mode), delta * 3.0),
      Lerp(b.y, BowHeightTarget(mode), delta * 2.0),
      if mode == TreeShape then sin(elapsed * 0.5) * 0.05 else b.rotationY)
  }

  class TopBow {
    /** The group's uniform scale (`scale.x`, set on all three axes). */
    var scale: real
    var y: real
    var rotationY: real

    function State(): BowState
      reads this
    {
      BowState(scale, y, rotationY)
    }

    /** three.js's default unit scale, and the group's initial position. */
    constructor ()
      ensures State() == BowState(1.0, 7.5, 0.0)
    {
      scale, y, rotationY := 1.0, 7.5, 0.0;
    }

    /** One frame; nothing happens while the group is not mounted. */
    method Frame(mounted: bool, mode: TreeState, delta: real, elapsed: real, sin: real -> real)
      modifies this
      ensures mounted ==> State() == BowStep(old(State()), mode, delta, elapsed, sin)
      ensures !mounted ==> State() == old(State())
    {
      if !mounted {
        return;
      }
      var targetScale := if mode == TreeShape then 1.5 else 0.0;
      var s := (1.0 - delta * 3.0) * scale + delta * 3.0 * targetScale;
      scale := s;
      var targetY := if mode == TreeShape then 7.2 else 15.0;
      y := (1.0 - delta * 2.0) * y + delta * 2.0 * targetY;
      if mode == TreeShape {
        rotationY := sin(elapsed * 0.5) * 0.05;
      }
    }
  }
}

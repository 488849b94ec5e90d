/** The layout generator: for every particle of a group, a target position
    on the tree (a cone, or a loose cylinder for sparkles), a target position
    in a sphere around the scene, a rotation seed, a scale from a per-kind
    range, an optional palette colour and a speed. The random draws are an
    explicit input, one record per particle, and the transcendental functions
    are parameters constrained only by the range facts the proofs use. */
module Layout {
  import opened Types

  const TREE_HEIGHT: real := 14.0
  const MAX_RADIUS: real := 6.0
  const SCATTER_RADIUS: real := 30.0
  /** `Math.PI` as a real. */
  const PI: real := 3.141592653589793

  datatype Kind = Needle | Ornament | Gift | Bauble | Sparkle

  const GIFT_COLORS: seq<string> := ["#E63946", "#2A9D8F", "#F4A261", "#457B9D", "#D62828", "#8338EC"]
  const BAUBLE_COLORS: seq<string> := ["#F1FAEE", "#A8DADC", "#FFD700", "#FF69B4"]

  /** The `Math` functions the generator calls. */
  datatype MathLib = MathLib(
    pow: (real, real) -> real,
    sqrt: real -> real,
    cbrt: real -> real,
    acos: real -> real,
    sin: real -> real,
    cos: real -> real)

  /** The facts about those functions that the layout's bounds rest on. */
  ghost predicate Lawful(m: MathLib) {
    && (forall u, p :: 0.0 <= u < 1.0 && p > 0.0 ==> 0.0 <= m.pow(u, p) < 1.0)
    && (forall u :: 0.0 <= u < 1.0 ==> 0.0 <= m.sqrt(u) < 1.0)
    && (forall u :: 0.0 <= u < 1.0 ==> 0.0 <= m.cbrt(u) < 1.0)
    && (forall t :: m.sin(t) * m.sin(t) + m.cos(t) * m.cos(t) == 1.0)
  }

  /** The `Math.random()` values one iteration consumes, each in [0, 1):
      three for the tree position (in call order), three for the scatter
      position (the azimuth, the polar draw, the radius draw), three for the
      rotation seed, one for the scale, one for the palette pick (used only
      by kinds with a palette) and one for the speed. */
  datatype Draws = Draws(
    tree1: real, tree2: real, tree3: real,
    scatterU: real, scatterV: real, scatterW: real,
    rot0: real, rot1: real, rot2: real,
    scaleU: real, colorU: real, speedU: real)

  predicate Unit(u: real) { 0.0 <= u < 1.0 }

  predicate InUnitRange(d: Draws) {
    && Unit(d.tree1) && Unit(d.tree2) && Unit(d.tree3)
    && Unit(d.scatterU) && Unit(d.scatterV) && Unit(d.scatterW)
    && Unit(d.rot0) && Unit(d.rot1) && Unit(d.rot2)
    && Unit(d.scaleU) && Unit(d.colorU) && Unit(d.speedU)
  }

  /** The draw u in [0, 1) as a fraction of w: `u * w`. */
  function Portion(u: real, w: real): (r: real)
    ensures Unit(u) && w > 0.0 ==> 0.0 <= r < w
    ensures Unit(u) && w >= 0.0 ==> 0.0 <= r <= w
  {
    assert Unit(u) && w >= 0.0 ==> u * w >= 0.0 && (1.0 - u) * w >= 0.0;
    assert Unit(u) && w > 0.0 ==> (1.0 - u) * w > 0.0;
    u * w
  }

  /** three.js `MathUtils.randFloat`, given its draw. */
  function RandFloat(low: real, high: real, u: real): (r: real)
    requires low < high && Unit(u)
    ensures low <= r < high
  {
    low + Portion(u, high - low)
  }

  /** The point at angle theta on the circle of radius r, as
      (r * cos theta, r * sin theta); its squared distance from the centre is r * r. */
  function Polar(r: real, theta: real, m: MathLib): (p: (real, real))
    requires Lawful(m)
    ensures p.0 * p.0 + p.1 * p.1 == r * r
  {
    var c, s := m.cos(theta), m.sin(theta);
    assert (r * c) * (r * c) + (r * s) * (r * s) == r * r * (c * c + s * s);
    (r * c, r * s)
  }

  lemma SquareMonotone(a: real, b: real)
    requires 0.0 <= a <= b
    ensures a * a <= b * b
  {
    assert a * (b - a) >= 0.0;
    assert b * (b - a) >= 0.0;
  }

  lemma SquareStrict(a: real, b: real)
    requires 0.0 <= a < b
    ensures a * a < b * b
  {
    assert a * (b - a) >= 0.0;
    assert b * (b - a) > 0.0;
  }

  /** The height exponent: needles crowd toward the wide bottom of the cone. */
  function HeightExponent(kind: Kind): (p: real)
    ensures p > 0.0
  {
    if kind == Needle then 0.8 else 1.0
  }

  /** The target position on the tree. Cone kinds sit at height
      yNorm * 14 - 7 within radius (1 - yNorm) * 6, where yNorm is recovered
      from the height; sparkles fill a cylinder of radius 8 from height -8 to 10. */
  function TreePosition(kind: Kind, d: Draws, m: MathLib): (p: Vec3)
    requires Lawful(m) && InUnitRange(d)
    ensures kind != Sparkle ==> -7.0 <= p.y < 7.0
    ensures kind != Sparkle ==>
              p.x * p.x + p.z * p.z <= ConeRadius(p.y) * ConeRadius(p.y)
    ensures kind == Sparkle ==> -8.0 <= p.y < 10.0 && p.x * p.x + p.z * p.z < 64.0
  {
    if kind == Sparkle then
      var theta := d.tree1 * PI * 2.0;
      var r := Portion(d.tree2, MAX_RADIUS + 2.0);
      var y := Portion(d.tree3, TREE_HEIGHT + 4.0) - (TREE_HEIGHT / 2.0) - 1.0;
      var xz := Polar(r, theta, m);
      SquareStrict(r, 8.0);
      Vec3(xz.0, y, xz.1)
    else
      var yNorm := m.pow(d.tree1, HeightExponent(kind));
      var y := yNorm * TREE_HEIGHT - (TREE_HEIGHT / 2.0);
      var currentRadiusMax := (1.0 - yNorm) * MAX_RADIUS;
      var r := Portion(m.sqrt(d.tree2), currentRadiusMax);
      var theta := d.tree3 * PI * 2.0;
      var xz := Polar(r, theta, m);
      assert ConeRadius(y) == currentRadiusMax;
      SquareMonotone(r, ConeRadius(y));
      Vec3(xz.0, y, xz.1)
  }

  /** The cone's radius at height y: (1 - yNorm) * MAX_RADIUS, with the
      normalised height yNorm recovered from y. */
  function ConeRadius(y: real): (r: real)
    ensures -7.0 <= y <= 7.0 ==> 0.0 <= r <= MAX_RADIUS
  {
    (1.0 - (y + TREE_HEIGHT / 2.0) / TREE_HEIGHT) * MAX_RADIUS
  }

  /** The target position in the scatter sphere: the draws give the polar
      angle, the azimuth and a radius below SCATTER_RADIUS, and the sphere is
      lifted by 5; the point lies strictly inside the sphere of radius 30
      centred at (0, 5, 0). */
  function ScatterPosition(d: Draws, m: MathLib): (p: Vec3)
    requires Lawful(m) && InUnitRange(d)
    ensures p.x * p.x + (p.y - 5.0) * (p.y - 5.0) + p.z * p.z < SCATTER_RADIUS * SCATTER_RADIUS
  {
    var u := d.scatterU;
    var v := d.scatterV;
    var phi := m.acos(2.0 * v - 1.0);
    var lambda := 2.0 * PI * u;
    var scatterR := Portion(m.cbrt(d.scatterW), SCATTER_RADIUS);
    // (scatterR * sin phi, scatterR * cos phi) and, in the plane at that
    // distance from the polar axis, the azimuth lambda
    var polar := Polar(scatterR, phi, m);
    var azimuth := Polar(polar.1, lambda, m);
    var scatterX := azimuth.0;
    var scatterY := azimuth.1 + 5.0;
    var scatterZ := polar.0;
    SquareStrict(scatterR, 30.0);
    Vec3(scatterX, scatterY, scatterZ)
  }

  /** The rotation seed: three angles in [0, PI). */
  function RotationSeed(d: Draws): (r: (real, real, real))
    requires InUnitRange(d)
    ensures 0.0 <= r.0 < PI && 0.0 <= r.1 < PI && 0.0 <= r.2 < PI
  {
    (Portion(d.rot0, PI), Portion(d.rot1, PI), Portion(d.rot2, PI))
  }

  /** The per-kind scale range [lo, hi). */
  function ScaleRange(kind: Kind): (range: (real, real))
    ensures range.0 < range.1
  {
    match kind
    case Needle => (1.0, 1.8)
    case Ornament => (1.5, 3.0)
    case Gift => (4.5, 7.0)
    case Bauble => (1.5, 2.5)
    case Sparkle => (0.5, 1.2)
  }

  function Scale(kind: Kind, u: real): (s: real)
    requires Unit(u)
    ensures ScaleRange(kind).0 <= s < ScaleRange(kind).1
  {
    RandFloat(ScaleRange(kind).0, ScaleRange(kind).1, u)
  }

  /** Gifts and baubles pick one colour of their palette; other kinds have none. */
  function Color(kind: Kind, u: real): (c: Option<string>)
    requires Unit(u)
    ensures c.Some? <==> kind == Gift || kind == Bauble
    ensures kind == Gift ==> c.value in GIFT_COLORS
    ensures kind == Bauble ==> c.value in BAUBLE_COLORS
  {
    if kind == Gift then
      var index := Portion(u, |GIFT_COLORS| as real).Floor;
      Some(GIFT_COLORS[index])
    else if kind == Bauble then
      var index := Portion(u, |BAUBLE_COLORS| as real).Floor;
      Some(BAUBLE_COLORS[index])
    else
      None
  }

  /** The record of particle `i` of a group of `kind`. */
  function SampleParticle(i: nat, kind: Kind, d: Draws, m: MathLib): (p: ParticleData)
    requires Lawful(m) && InUnitRange(d)
    ensures p.id == i
    ensures p.treePosition == TreePosition(kind, d, m) && p.scatterPosition == ScatterPosition(d, m)
    ensures ScaleRange(kind).0 <= p.scale < ScaleRange(kind).1
    ensures 0.0 <= p.rotation.0 < PI && 0.0 <= p.rotation.1 < PI && 0.0 <= p.rotation.2 < PI
    ensures p.color == Color(kind, d.colorU)
    ensures 0.02 <= p.speed < 0.05
  {
    ParticleData(
      id := i,
      treePosition := TreePosition(kind, d, m),
      scatterPosition := ScatterPosition(d, m),
      scale := Scale(kind, d.scaleU),
      rotation := RotationSeed(d),
      color := Color(kind, d.colorU),
      speed := RandFloat(0.02, 0.05, d.speedU))
  }

  /** Every bound a generated record of `kind` satisfies. */
  ghost predicate InLayout(kind: Kind, p: ParticleData) {
    && (kind != Sparkle ==> -7.0 <= p.treePosition.y < 7.0)
    && (kind != Sparkle ==>
          p.treePosition.x * p.treePosition.x + p.treePosition.z * p.treePosition.z
            <= ConeRadius(p.treePosition.y) * ConeRadius(p.treePosition.y))
    && (kind == Sparkle ==>
          -8.0 <= p.treePosition.y < 10.0
          && p.treePosition.x * p.treePosition.x + p.treePosition.z * p.treePosition.z < 64.0)
    && (p.scatterPosition.x * p.scatterPosition.x
        + (p.scatterPosition.y - 5.0) * (p.scatterPosition.y - 5.0)
        + p.scatterPosition.z * p.scatterPosition.z < SCATTER_RADIUS * SCATTER_RADIUS)
    && ScaleRange(kind).0 <= p.scale < ScaleRange(kind).1
    && 0.0 <= p.rotation.0 < PI && 0.0 <= p.rotation.1 < PI && 0.0 <= p.rotation.2 < PI
    && (p.color.Some? <==> kind == Gift || kind == Bauble)
    && (kind == Gift ==> p.color.value in GIFT_COLORS)
    && (kind == Bauble ==> p.color.value in BAUBLE_COLORS)
    && 0.02 <= p.speed < 0.05
  }

  /** `generateTreeData`: one record per iteration, pushed in order. */
  method GenerateTreeData(count: nat, kind: Kind, draws: seq<Draws>, m: MathLib) returns (particles: seq<ParticleData>)
    requires |draws| == count
    requires forall k :: 0 <= k < |draws| ==> InUnitRange(draws[k])
    requires Lawful(m)
    ensures |particles| == count
    ensures forall i :: 0 <= i < count ==> particles[i] == SampleParticle(i, kind, draws[i], m)
    ensures forall i :: 0 <= i < count ==> particles[i].id == i && InLayout(kind, particles[i])
  {
    particles := [];
    for i := 0 to count
      invariant |particles| == i
      invariant forall k :: 0 <= k < i ==> particles[k] == SampleParticle(k, kind, draws[k], m)
    {
      var treePos := TreePosition(kind, draws[i], m);
      var scatterPos := ScatterPosition(draws[i], m);
      var rotation := RotationSeed(draws[i]);
      var scale := Scale(kind, draws[i].scaleU);
      var color := Color(kind, draws[i].colorU);
      var p := ParticleData(i, treePos, scatterPos, scale, rotation, color, RandFloat(0.02, 0.05, draws[i].speedU));
      assert p == SampleParticle(i, kind, draws[i], m);
      particles := particles + [p];
    }
    forall i | 0 <= i < count
      ensures particles[i].id == i && InLayout(kind, particles[i])
    {
      SampleInLayout(i, kind, draws[i], m);
    }
  }

  lemma SampleInLayout(i: nat, kind: Kind, d: Draws, m: MathLib)
    requires Lawful(m) && InUnitRange(d)
    ensures InLayout(kind, SampleParticle(i, kind, d, m))
  {
    var p := SampleParticle(i, kind, d, m);
    assert p.treePosition == TreePosition(kind, d, m);
    assert p.scatterPosition == ScatterPosition(d, m);
  }
}

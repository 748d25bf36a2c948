/**
 * The shape generator (components/ParticleSystem.tsx): one point and one colour
 * per particle. The trigonometric functions, the random source and the
 * HSL-to-RGB conversion are parameters; numbers are reals.
 */
module ShapeGenerator {
  import opened Types

  const COUNT: nat := 3000

  datatype Vec3 = Vec3(x: real, y: real, z: real)
  datatype Rgb = Rgb(r: real, g: real, b: real)

  /** `Math.PI`, the double nearest to pi. */
  const PI: real := 3.141592653589793

  /** `Math.sin`, `Math.cos` and `Math.acos`. */
  datatype MathLib = MathLib(sin: real -> real, cos: real -> real, acos: real -> real)

  /** `Color.setHSL(h, s, l)` followed by reading `r`, `g`, `b`. */
  type Hsl = (real, real, real) -> Rgb

  /** `Math.random()`: the k-th value drawn, from the first call on. */
  type Random = nat -> real

  /** What `Math.random()` promises: every draw lies in [0, 1). */
  ghost predicate UnitDraws(rand: Random) {
    forall k :: 0.0 <= rand(k) < 1.0
  }

  /**
   * `heartPoint`: `rt` places the point on the curve, `rr` is drawn and unused,
   * `rz` sets the depth; all three coordinates are halved.
   */
  function HeartPoint(m: MathLib, rt: real, rr: real, rz: real): (p: Vec3)
    ensures 0.0 <= rz < 1.0 ==> -1.25 <= p.z < 1.25
  {
    var t := rt * PI * 2.0;
    var s := m.sin(t);
    var x := 16.0 * (s * s * s);
    var y := 13.0 * m.cos(t) - 5.0 * m.cos(2.0 * t) - 2.0 * m.cos(3.0 * t) - m.cos(4.0 * t);
    var z := (rz - 0.5) * 5.0;
    var scale := 0.5;
    Vec3(x * scale, y * scale, z * scale)
  }

  /**
   * `randomSpherePoint`: azimuth `2 pi u`, polar angle `acos(2 v - 1)`, radius 10.
   * Where `cos` undoes `acos`, the height is linear in `v`, which is what
   * spreads uniform draws evenly over the sphere's area.
   */
  function SpherePoint(m: MathLib, u: real, v: real): (p: Vec3)
    ensures m.cos(m.acos(2.0 * v - 1.0)) == 2.0 * v - 1.0 ==> p.z == 20.0 * v - 10.0
  {
    var theta := 2.0 * PI * u;
    var phi := m.acos(2.0 * v - 1.0);
    var r := 10.0;
    Vec3(r * m.sin(phi) * m.cos(theta), r * m.sin(phi) * m.sin(theta), r * m.cos(phi))
  }

  /** Two unit pairs `a^2 + b^2 = 1`, `c^2 + d^2 = 1` give a point at distance 10. */
  lemma SumOfSquares(a: real, b: real, c: real, d: real)
    requires a * a + b * b == 1.0 && c * c + d * d == 1.0
    ensures (10.0 * a * d) * (10.0 * a * d) + (10.0 * a * c) * (10.0 * a * c) + (10.0 * b) * (10.0 * b) == 100.0
  {
    var aa, bb, cc, dd := a * a, b * b, c * c, d * d;
    assert (10.0 * a * d) * (10.0 * a * d) == 100.0 * (aa * dd);
    assert (10.0 * a * c) * (10.0 * a * c) == 100.0 * (aa * cc);
    assert (10.0 * b) * (10.0 * b) == 100.0 * bb;
    assert aa * dd + aa * cc == aa * (cc + dd);
  }

  /**
   * Wherever `sin^2 + cos^2 = 1` holds at the two angles a sphere point uses,
   * the point lies on the sphere of radius 10.
   */
  lemma SphereRadius(m: MathLib, u: real, v: real)
    requires var theta := 2.0 * PI * u;
      m.sin(theta) * m.sin(theta) + m.cos(theta) * m.cos(theta) == 1.0
    requires var phi := m.acos(2.0 * v - 1.0);
      m.sin(phi) * m.sin(phi) + m.cos(phi) * m.cos(phi) == 1.0
    ensures var p := SpherePoint(m, u, v); p.x * p.x + p.y * p.y + p.z * p.z == 100.0
  {
    var theta := 2.0 * PI * u;
    var phi := m.acos(2.0 * v - 1.0);
    SumOfSquares(m.sin(phi), m.cos(phi), m.sin(theta), m.cos(theta));
  }

  /** The hue handed to `setHSL` for the draw `r`: a red/pink band for hearts, any hue for fireworks. */
  function HueArgument(shape: ParticleShape, r: real): (h: real)
    ensures 0.0 <= r < 1.0 && shape == Heart ==> 0.95 <= h < 1.05
    ensures 0.0 <= r < 1.0 && shape == Firework ==> 0.0 <= h < 1.0
  {
    match shape
    case Heart => 0.95 + r * 0.1
    case Firework => r
  }

  /**
   * The three per-particle samplers the generation loop calls: `heartPoint`
   * and `randomSpherePoint` applied to their draws, and `setHSL`. The loop is
   * proved for any sampler; `Standard` is the one built from the formulas above.
   */
  datatype Sampler = Sampler(heart: (real, real, real) -> Vec3, sphere: (real, real) -> Vec3, hsl: Hsl)

  function Standard(m: MathLib, hsl: Hsl): Sampler {
    Sampler((rt, rr, rz) => HeartPoint(m, rt, rr, rz), (u, v) => SpherePoint(m, u, v), hsl)
  }

  /**
   * The point of particle `i`, from its own draws of the random stream: a
   * heart particle draws four values (t, an unused r, z, then its hue), a
   * firework particle three (u, v, then its hue).
   */
  function ParticlePoint(shape: ParticleShape, g: Sampler, rand: Random, i: nat): Vec3 {
    match shape
    case Heart => g.heart(rand(4 * i), rand(4 * i + 1), rand(4 * i + 2))
    case Firework => g.sphere(rand(3 * i), rand(3 * i + 1))
  }

  /** The index of the draw that sets particle `i`'s hue: its last one. */
  function HueDraw(shape: ParticleShape, i: nat): nat {
    match shape
    case Heart => 4 * i + 3
    case Firework => 3 * i + 2
  }

  /** The colour of particle `i`: full saturation, lightness one half. */
  function ParticleColor(shape: ParticleShape, g: Sampler, rand: Random, i: nat): Rgb {
    g.hsl(HueArgument(shape, rand(HueDraw(shape, i))), 1.0, 0.5)
  }

  /** Every heart particle has depth in [-1.25, 1.25). */
  lemma HeartDepth(m: MathLib, hsl: Hsl, rand: Random, i: nat)
    requires UnitDraws(rand)
    ensures -1.25 <= ParticlePoint(Heart, Standard(m, hsl), rand, i).z < 1.25
  {
    assert 0.0 <= rand(4 * i + 2) < 1.0;
  }

  /** Every firework particle lies on the sphere of radius 10, given the trigonometric identity. */
  lemma FireworkOnSphere(m: MathLib, hsl: Hsl, rand: Random, i: nat)
    requires forall a :: m.sin(a) * m.sin(a) + m.cos(a) * m.cos(a) == 1.0
    ensures var p := ParticlePoint(Firework, Standard(m, hsl), rand, i);
      p.x * p.x + p.y * p.y + p.z * p.z == 100.0
  {
    SphereRadius(m, rand(3 * i), rand(3 * i + 1));
  }

  /** Every particle's hue argument lies in its shape's band. */
  lemma ColorHue(shape: ParticleShape, rand: Random, i: nat)
    requires UnitDraws(rand)
    ensures var h := HueArgument(shape, rand(HueDraw(shape, i)));
      (shape == Heart ==> 0.95 <= h < 1.05) && (shape == Firework ==> 0.0 <= h < 1.0)
  {
    assert 0.0 <= rand(HueDraw(shape, i)) < 1.0;
  }

  /** Coordinate `c` (x, y, z) of a point. */
  function Coord(p: Vec3, c: nat): real
    requires c < 3
  {
    if c == 0 then p.x else if c == 1 then p.y else p.z
  }

  /** Channel `c` (r, g, b) of a colour. */
  function Channel(col: Rgb, c: nat): real
    requires c < 3
  {
    if c == 0 then col.r else if c == 1 then col.g else col.b
  }

  /**
   * The first `n` particles of a position and a colour buffer are in place:
   * entry `3 j + c` holds coordinate (or channel) `c` of particle `j`.
   */
  ghost predicate Filled(ps: seq<real>, cs: seq<real>, shape: ParticleShape, g: Sampler, rand: Random, n: nat)
    requires |ps| == 3 * COUNT && |cs| == 3 * COUNT && n <= COUNT
  {
    forall j, c :: 0 <= j < n && 0 <= c < 3 ==>
      ps[3 * j + c] == Coord(ParticlePoint(shape, g, rand, j), c) &&
      cs[3 * j + c] == Channel(ParticleColor(shape, g, rand, j), c)
  }

  /** Writing particle `i`'s three coordinates and three channels extends the filled prefix by one. */
  lemma FilledExtends(ps: seq<real>, cs: seq<real>, shape: ParticleShape, g: Sampler, rand: Random, i: nat)
    requires |ps| == 3 * COUNT && |cs| == 3 * COUNT && i < COUNT
    requires Filled(ps, cs, shape, g, rand, i)
    ensures var p, q := ParticlePoint(shape, g, rand, i), ParticleColor(shape, g, rand, i);
      Filled(ps[3 * i := p.x][3 * i + 1 := p.y][3 * i + 2 := p.z],
             cs[3 * i := q.r][3 * i + 1 := q.g][3 * i + 2 := q.b], shape, g, rand, i + 1)
  {
  }

  /**
   * The generation loop: fresh buffers of `3 * COUNT` entries, entry `3 i + c`
   * holding coordinate (or channel) `c` of particle `i`.
   */
  method GenerateField(shape: ParticleShape, g: Sampler, rand: Random)
    returns (pos: array<real>, col: array<real>)
    ensures fresh(pos) && fresh(col) && pos != col
    ensures pos.Length == 3 * COUNT && col.Length == 3 * COUNT
    ensures forall j, c :: 0 <= j < COUNT && 0 <= c < 3 ==>
      pos[3 * j + c] == Coord(ParticlePoint(shape, g, rand, j), c)
    ensures forall j, c :: 0 <= j < COUNT && 0 <= c < 3 ==>
      col[3 * j + c] == Channel(ParticleColor(shape, g, rand, j), c)
  {
    pos := new real[COUNT * 3];
    col := new real[COUNT * 3];
    var i := 0;
    while i < COUNT
      invariant 0 <= i <= COUNT
      invariant Filled(pos[..], col[..], shape, g, rand, i)
    {
      var vec: Vec3;
      var color: Rgb;
      if shape == Heart {
        vec := g.heart(rand(4 * i), rand(4 * i + 1), rand(4 * i + 2));
        color := g.hsl(0.95 + rand(4 * i + 3) * 0.1, 1.0, 0.5);
      } else {
        vec := g.sphere(rand(3 * i), rand(3 * i + 1));
        color := g.hsl(rand(3 * i + 2), 1.0, 0.5);
      }
      assert vec == ParticlePoint(shape, g, rand, i) && color == ParticleColor(shape, g, rand, i);
      ghost var ps, cs := pos[..], col[..];
      FilledExtends(ps, cs, shape, g, rand, i);
      pos[i * 3] := vec.x;
      pos[i * 3 + 1] := vec.y;
      pos[i * 3 + 2] := vec.z;
      assert pos[..] == ps[3 * i := vec.x][3 * i + 1 := vec.y][3 * i + 2 := vec.z];
      col[i * 3] := color.r;
      col[i * 3 + 1] := color.g;
      col[i * 3 + 2] := color.b;
      assert col[..] == cs[3 * i := color.r][3 * i + 1 := color.g][3 * i + 2 := color.b];
      i := i + 1;
    }
  }
}

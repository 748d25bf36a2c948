/**
 * The particle field engine (components/ParticleSystem.tsx): the position and
 * colour buffers built for a shape, the untouched copy of the positions, and
 * the per-frame update of scale, render buffer and rotation.
 */
module ParticleEngine {
  import opened Types
  import opened ShapeGenerator
  import opened ScaleDynamics

  /** Shimmer amplitude. */
  const NOISE_AMPLITUDE: real := 0.2
  /** Radians per second of ambient rotation about y. */
  const SPIN: real := 0.1

  /** The shimmer of particle `i` at `elapsed` seconds; the same for its three coordinates. */
  function Noise(sin: real -> real, elapsed: real, i: nat): (r: real)
    ensures -1.0 <= sin(elapsed * 2.0 + i as real) <= 1.0 ==> -NOISE_AMPLITUDE <= r <= NOISE_AMPLITUDE
  {
    sin(elapsed * 2.0 + i as real) * NOISE_AMPLITUDE
  }

  /** A render entry: its base entry scaled, then shifted by its particle's shimmer, so within the shimmer amplitude of the scaled base. */
  function Rendered(base: real, scale: real, noise: real): (r: real)
    ensures -NOISE_AMPLITUDE <= noise <= NOISE_AMPLITUDE ==> Abs(r - base * scale) <= NOISE_AMPLITUDE
  {
    base * scale + noise
  }

  /** The per-vertex loop: every entry of `positionsArray` becomes its base entry rendered. */
  method Render(positionsArray: array<real>, base: array<real>, scale: real, elapsed: real, sin: real -> real)
    requires positionsArray != base && positionsArray.Length == 3 * COUNT && base.Length == 3 * COUNT
    modifies positionsArray
    ensures forall j :: 0 <= j < COUNT ==> var noise := Noise(sin, elapsed, j);
      positionsArray[3 * j] == Rendered(base[3 * j], scale, noise) &&
      positionsArray[3 * j + 1] == Rendered(base[3 * j + 1], scale, noise) &&
      positionsArray[3 * j + 2] == Rendered(base[3 * j + 2], scale, noise)
  {
    var i := 0;
    while i < COUNT
      invariant 0 <= i <= COUNT
      invariant forall j :: 0 <= j < i ==> var noise := Noise(sin, elapsed, j);
        positionsArray[3 * j] == Rendered(base[3 * j], scale, noise) &&
        positionsArray[3 * j + 1] == Rendered(base[3 * j + 1], scale, noise) &&
        positionsArray[3 * j + 2] == Rendered(base[3 * j + 2], scale, noise)
    {
      var ix, iy, iz := i * 3, i * 3 + 1, i * 3 + 2;
      var ox, oy, oz := base[ix], base[iy], base[iz];
      var noise := sin(elapsed * 2.0 + i as real) * 0.2;
      positionsArray[ix] := ox * scale + noise;
      positionsArray[iy] := oy * scale + noise;
      positionsArray[iz] := oz * scale + noise;
      i := i + 1;
    }
  }

  /** `positions.slice()`: a fresh, elementwise copy. */
  method CopyBase(positions: array<real>) returns (base: array<real>)
    ensures fresh(base)
    ensures base[..] == positions[..]
  {
    base := new real[positions.Length](k requires 0 <= k < positions.Length reads positions => positions[k]);
  }

  class ParticleField {
    var shape: ParticleShape
    /** The geometry's position attribute, rewritten every frame. */
    var positions: array<real>
    var colors: array<real>
    /** `originalPositions`: the generated positions, never written. */
    var original: array<real>
    var targetScale: real
    var currentScale: real
    /** `points.rotation.y`. */
    var rotationY: real

    /** The three buffers have `3 * COUNT` entries each and are distinct arrays. */
    ghost predicate Valid()
      reads this
    {
      positions.Length == 3 * COUNT && colors.Length == 3 * COUNT && original.Length == 3 * COUNT &&
      positions != original && positions != colors && colors != original
    }

    /** Mounting: buffers for `shape`, a copy of its positions, both scales 1. */
    constructor (shape: ParticleShape, g: Sampler, rand: Random)
      ensures Valid() && this.shape == shape
      ensures fresh(positions) && fresh(colors) && fresh(original)
      ensures forall j, c :: 0 <= j < COUNT && 0 <= c < 3 ==>
        positions[3 * j + c] == Coord(ParticlePoint(shape, g, rand, j), c) &&
        colors[3 * j + c] == Channel(ParticleColor(shape, g, rand, j), c)
      ensures original[..] == positions[..]
      ensures targetScale == 1.0 && currentScale == 1.0 && rotationY == 0.0
    {
      this.shape := shape;
      var pos, col := GenerateField(shape, g, rand);
      var base := CopyBase(pos);
      positions, colors, original := pos, col, base;
      targetScale, currentScale := 1.0, 1.0;
      rotationY := 0.0;
    }

    /**
     * A new `shape` prop: the memoised buffers are rebuilt only when the shape
     * differs; the scales and the rotation carry over.
     */
    method SetShape(newShape: ParticleShape, g: Sampler, rand: Random)
      requires Valid()
      modifies this
      ensures Valid()
      ensures newShape == old(shape) ==> unchanged(this)
      ensures newShape != old(shape) ==>
        shape == newShape && fresh(positions) && fresh(colors) && fresh(original) &&
        original[..] == positions[..] &&
        forall j, c :: 0 <= j < COUNT && 0 <= c < 3 ==>
          positions[3 * j + c] == Coord(ParticlePoint(newShape, g, rand, j), c) &&
          colors[3 * j + c] == Channel(ParticleColor(newShape, g, rand, j), c)
      ensures targetScale == old(targetScale) && currentScale == old(currentScale)
      ensures rotationY == old(rotationY)
    {
      if newShape == shape {
        return;
      }
      shape := newShape;
      var pos, col := GenerateField(newShape, g, rand);
      var base := CopyBase(pos);
      positions, colors, original := pos, col, base;
    }

    /**
     * One `useFrame` callback, `delta` seconds after the last, `elapsed` after
     * the clock started: nothing before the points object is mounted;
     * otherwise the target follows the gesture, the current scale takes one
     * unclamped lerp step, every render entry becomes its base entry scaled
     * plus its particle's shimmer, and the rotation advances.
     */
    method Frame(mounted: bool, gesture: HandGesture, delta: real, elapsed: real, sin: real -> real)
      requires Valid()
      modifies this`targetScale, this`currentScale, this`rotationY, positions
      ensures Valid()
      ensures !mounted ==> unchanged(this) && unchanged(positions)
      ensures mounted ==>
        targetScale == TargetScale(gesture) &&
        currentScale == Lerp(old(currentScale), targetScale, delta * SMOOTHING) &&
        rotationY == old(rotationY) + delta * SPIN
      ensures mounted ==> forall j :: 0 <= j < COUNT ==> var noise := Noise(sin, elapsed, j);
        positions[3 * j] == Rendered(original[3 * j], currentScale, noise) &&
        positions[3 * j + 1] == Rendered(original[3 * j + 1], currentScale, noise) &&
        positions[3 * j + 2] == Rendered(original[3 * j + 2], currentScale, noise)
      ensures unchanged(original) && unchanged(colors)
    {
      if !mounted {
        return;
      }
      if gesture == Open {
        targetScale := 2.5;
      } else {
        targetScale := 0.5;
      }
      currentScale := Lerp(currentScale, targetScale, delta * 5.0);
      Render(positions, original, currentScale, elapsed, sin);
      rotationY := rotationY + delta * 0.1;
    }
  }
}

/**
 * The star field of `initStarfield`: a single pass that places 1000 stars in
 * a spherical shell and gives each an independent flicker profile, followed by
 * a per-frame update that advances a shared clock and rewrites every star's
 * opacity in one shared buffer.
 */
module Starfield {
  import opened HostMath

  /** Number of stars; fixed, as the generation and update loops count to it. */
  const StarCount: nat := 1000
  /** `Math.random()` calls made per star by the generation loop. */
  const DrawsPerStar: nat := 6
  /** Clock increment per frame (about 60 frames per second). */
  const Tick: real := 0.016
  /** Lowest opacity the update writes. */
  const MinOpacity: real := 0.4
  /** Width of the opacity band above MinOpacity. */
  const OpacitySpan: real := 0.6

  /** A star's flicker profile. `intensity` is stored but never read. */
  datatype Flicker = Flicker(intensity: real, speed: real, offset: real)

  // ---------------------------------------------------------------------
  // Generation formulas, one draw each
  // ---------------------------------------------------------------------

  /** A draw scaled to an angle: used for the azimuth `phi` and for the phase `offset`. */
  function Angle(r: real): (a: real)
    requires IsDraw(r)
    ensures 0.0 <= a < 2.0 * Pi
  {
    r * Pi * 2.0
  }

  /** The argument handed to `Math.acos` for the polar angle. */
  function AcosArgument(r: real): (a: real)
    requires IsDraw(r)
    ensures -1.0 <= a < 1.0
  {
    r * 2.0 - 1.0
  }

  /** Distance of a star from the origin: a shell 200 units thick at radius 800. */
  function Radius(r: real): (rad: real)
    requires IsDraw(r)
    ensures 800.0 <= rad < 1000.0
  {
    800.0 + r * 200.0
  }

  /** Angular rate of a star's flicker. */
  function Speed(r: real): (s: real)
    requires IsDraw(r)
    ensures 0.5 <= s < 2.0
  {
    0.5 + r * 1.5
  }

  /**
   * The draws consumed by star `i`, in the order the loop body calls
   * `Math.random()`: phi, theta, radius, intensity, speed, offset.
   */
  function StarDraws(draws: seq<real>, i: nat): (d: seq<real>)
    requires DrawsPerStar * (i + 1) <= |draws|
    requires AllDraws(draws)
    ensures |d| == DrawsPerStar && AllDraws(d)
    ensures forall k :: 0 <= k < DrawsPerStar ==> d[k] == draws[DrawsPerStar * i + k]
  {
    draws[DrawsPerStar * i .. DrawsPerStar * i + DrawsPerStar]
  }

  /** The flicker record pushed for a star with draws `d`. */
  function StarFlicker(d: seq<real>): (f: Flicker)
    requires |d| == DrawsPerStar && AllDraws(d)
    ensures 0.0 <= f.intensity < 1.0
    ensures 0.5 <= f.speed < 2.0
    ensures 0.0 <= f.offset < 2.0 * Pi
  {
    Flicker(d[3], Speed(d[4]), Angle(d[5]))
  }

  /** The coordinates x, y, z pushed for a star with draws `d`. */
  function StarPosition(d: seq<real>, m: Trig): (p: seq<real>)
    requires |d| == DrawsPerStar && AllDraws(d)
    ensures |p| == 3
  {
    var phi := Angle(d[0]);
    var theta := m.acos(AcosArgument(d[1]));
    var radius := Radius(d[2]);
    [radius * m.sin(theta) * m.cos(phi), radius * m.sin(theta) * m.sin(phi), radius * m.cos(theta)]
  }

  /** Squared distance from the origin of a three-coordinate point. */
  function NormSquared(p: seq<real>): real
    requires |p| == 3
  {
    p[0] * p[0] + p[1] * p[1] + p[2] * p[2]
  }

  /** rad^2 (a^2 b^2 + a^2 c^2 + d^2) is rad^2 when b^2 + c^2 and a^2 + d^2 are 1. */
  lemma ShellIdentity(rad: real, a: real, b: real, c: real, d: real)
    requires b * b + c * c == 1.0 && a * a + d * d == 1.0
    ensures (rad * a * b) * (rad * a * b) + (rad * a * c) * (rad * a * c) + (rad * d) * (rad * d) == rad * rad
  {
    calc {
      (rad * a * b) * (rad * a * b) + (rad * a * c) * (rad * a * c) + (rad * d) * (rad * d);
      (rad * rad) * ((a * a) * (b * b + c * c) + d * d);
      (rad * rad) * (a * a + d * d);
      rad * rad;
    }
  }

  /**
   * With sine and cosine satisfying sin^2 + cos^2 = 1, every generated star lies
   * in the shell between radius 800 (inclusive) and 1000 (exclusive).
   */
  lemma StarOnShell(d: seq<real>, m: Trig)
    requires |d| == DrawsPerStar && AllDraws(d)
    requires Pythagorean(m)
    ensures 800.0 * 800.0 <= NormSquared(StarPosition(d, m)) < 1000.0 * 1000.0
  {
    var phi := Angle(d[0]);
    var theta := m.acos(AcosArgument(d[1]));
    var rad := Radius(d[2]);
    assert m.sin(phi) * m.sin(phi) + m.cos(phi) * m.cos(phi) == 1.0;
    assert m.sin(theta) * m.sin(theta) + m.cos(theta) * m.cos(theta) == 1.0;
    ShellIdentity(rad, m.sin(theta), m.cos(phi), m.sin(phi), m.cos(theta));
    assert NormSquared(StarPosition(d, m)) == rad * rad;
    assert 800.0 * 800.0 <= rad * 800.0 <= rad * rad;
    assert rad * rad < rad * 1000.0 < 1000.0 * 1000.0;
  }

  /** `vertices` and `flicker` are what the generation loop builds from `draws`. */
  ghost predicate Generated(draws: seq<real>, m: Trig, vertices: seq<real>, flicker: seq<Flicker>)
    requires |draws| == DrawsPerStar * StarCount && AllDraws(draws)
  {
    && |vertices| == 3 * StarCount
    && |flicker| == StarCount
    && forall i :: 0 <= i < StarCount ==>
         && vertices[3 * i .. 3 * i + 3] == StarPosition(StarDraws(draws, i), m)
         && flicker[i] == StarFlicker(StarDraws(draws, i))
  }

  /**
   * The generation loop: for each of the 1000 stars, push its three
   * coordinates and its flicker record, consuming six draws per star.
   */
  method GenerateStars(draws: seq<real>, m: Trig) returns (vertices: seq<real>, flicker: seq<Flicker>)
    requires |draws| == DrawsPerStar * StarCount && AllDraws(draws)
    ensures Generated(draws, m, vertices, flicker)
    ensures forall i :: 0 <= i < |flicker| ==>
              0.5 <= flicker[i].speed < 2.0 && 0.0 <= flicker[i].offset < 2.0 * Pi
  {
    vertices, flicker := [], [];
    var i := 0;
    while i < StarCount
      invariant 0 <= i <= StarCount
      invariant |vertices| == 3 * i && |flicker| == i
      invariant forall j :: 0 <= j < i ==>
                  && vertices[3 * j .. 3 * j + 3] == StarPosition(StarDraws(draws, j), m)
                  && flicker[j] == StarFlicker(StarDraws(draws, j))
    {
      var d := StarDraws(draws, i);
      ghost var before := vertices;
      vertices := vertices + StarPosition(d, m);
      AppendTriple(before, StarPosition(d, m), i);
      flicker := flicker + [StarFlicker(d)];
      i := i + 1;
    }
  }

  /** Appending one star's coordinates leaves the earlier stars' triples in place. */
  lemma AppendTriple(vs: seq<real>, p: seq<real>, i: nat)
    requires |vs| == 3 * i && |p| == 3
    ensures forall j :: 0 <= j < i ==> (vs + p)[3 * j .. 3 * j + 3] == vs[3 * j .. 3 * j + 3]
    ensures (vs + p)[3 * i .. 3 * i + 3] == p
  {
    forall j | 0 <= j < i
      ensures (vs + p)[3 * j .. 3 * j + 3] == vs[3 * j .. 3 * j + 3]
    {
      assert (vs + p)[..|vs|] == vs;
    }
  }

  // ---------------------------------------------------------------------
  // Per-frame flicker
  // ---------------------------------------------------------------------

  /** The `sin(...) * 0.5 + 0.5` remap of a sine value into [0, 1]. */
  function FlickerFactor(s: real): (v: real)
    requires -1.0 <= s <= 1.0
    ensures 0.0 <= v <= 1.0
    ensures v == 0.0 <==> s == -1.0
    ensures v == 1.0 <==> s == 1.0
  {
    s * 0.5 + 0.5
  }

  /** Opacity of a star with profile `f` at clock `t`. */
  function FlickerOpacity(t: real, f: Flicker, m: Trig): (o: real)
    requires SineBounded(m)
    ensures MinOpacity <= o <= MinOpacity + OpacitySpan
    ensures o == MinOpacity <==> m.sin(t * f.speed + f.offset) == -1.0
    ensures o == MinOpacity + OpacitySpan <==> m.sin(t * f.speed + f.offset) == 1.0
  {
    MinOpacity + FlickerFactor(m.sin(t * f.speed + f.offset)) * OpacitySpan
  }

  /** Every value in `s` is an opacity from the band [0.4, 1.0]. */
  ghost predicate InBand(s: seq<real>) {
    forall k :: 0 <= k < |s| ==> MinOpacity <= s[k] <= MinOpacity + OpacitySpan
  }

  /** The whole opacity buffer for profiles `fs` at clock `t`. */
  function Frame(t: real, fs: seq<Flicker>, m: Trig): (r: seq<real>)
    requires SineBounded(m)
    ensures |r| == |fs| && InBand(r)
  {
    seq(|fs|, i requires 0 <= i < |fs| => FlickerOpacity(t, fs[i], m))
  }

  /** A buffer whose every entry is its star's opacity at clock `t` is the frame at `t`. */
  lemma FrameOfEntries(a: seq<real>, t: real, fs: seq<Flicker>, m: Trig)
    requires SineBounded(m)
    requires |a| == |fs|
    requires forall j :: 0 <= j < |a| ==> a[j] == FlickerOpacity(t, fs[j], m)
    ensures a == Frame(t, fs, m)
  {
  }

  // ---------------------------------------------------------------------
  // The star field
  // ---------------------------------------------------------------------

  /**
   * The state `initStarfield` sets up and `animate` updates: the positions
   * and flicker profiles (write-once), the opacity buffer, the clock, the
   * shader's `time` uniform and the buffer's dirty flag.
   */
  class Starfield {
    /** The host's trigonometric functions. */
    const math: Trig
    /** Position attribute: x, y, z of each star in turn. */
    const positions: seq<real>
    /** Flicker profile of each star. */
    const flicker: seq<Flicker>
    /** Opacity attribute: one value per star, rewritten every frame. */
    const opacities: array<real>
    /** The animation clock. */
    var time: real
    /** The shader's `time` uniform. */
    var uniformTime: real
    /** The opacity attribute's `needsUpdate` flag. */
    var needsUpdate: bool
    /** Number of frames run so far. */
    ghost var frames: nat
    /** The buffer contents at each moment the attribute was flagged for upload. */
    ghost var uploads: seq<seq<real>>

    ghost predicate Valid()
      reads this, opacities
    {
      && SineBounded(math)
      && |positions| == 3 * StarCount
      && |flicker| == StarCount
      && opacities.Length == StarCount
      && time == frames as real * Tick
      && uniformTime == time
      && |uploads| == frames
      && InBand(opacities[..])
    }

    /**
     * `initStarfield` up to the first frame: generate the stars, build the
     * position attribute and an opacity buffer of ones, and start the clock at 0.
     */
    constructor Generate(draws: seq<real>, m: Trig)
      requires |draws| == DrawsPerStar * StarCount && AllDraws(draws)
      requires SineBounded(m)
      ensures Valid() && fresh(opacities)
      ensures math == m
      ensures Generated(draws, m, positions, flicker)
      ensures opacities[..] == seq(StarCount, _ => 1.0)
      ensures time == 0.0 && uniformTime == 0.0
      ensures frames == 0 && uploads == [] && !needsUpdate
    {
      var vertices, profiles := GenerateStars(draws, m);
      var buffer := new real[StarCount];
      var i := 0;
      while i < StarCount
        invariant 0 <= i <= StarCount
        invariant forall j :: 0 <= j < i ==> buffer[j] == 1.0
      {
        buffer[i] := 1.0;
        i := i + 1;
      }
      math := m;
      positions := vertices;
      flicker := profiles;
      opacities := buffer;
      time := 0.0;
      uniformTime := 0.0;
      needsUpdate := false;
      frames := 0;
      uploads := [];
    }

    /**
     * One call of `animate`, without the host's scheduling and the render
     * call: advance the clock, rewrite every opacity, flag the buffer for
     * upload once, and copy the clock into the uniform.
     */
    method Step()
      requires Valid()
      modifies this, opacities
      ensures Valid()
      ensures time == old(time) + Tick
      ensures opacities[..] == Frame(time, flicker, math)
      ensures uniformTime == time
      ensures frames == old(frames) + 1
      ensures uploads == old(uploads) + [Frame(time, flicker, math)]
      ensures needsUpdate
    {
      ghost var n := frames;
      time := time + Tick;
      frames := frames + 1;
      assert frames as real * Tick == n as real * Tick + Tick;
      var i := 0;
      while i < StarCount
        modifies opacities
        invariant 0 <= i <= StarCount
        invariant forall j :: 0 <= j < i ==> opacities[j] == FlickerOpacity(time, flicker[j], math)
      {
        opacities[i] := FlickerOpacity(time, flicker[i], math);
        i := i + 1;
      }
      FrameOfEntries(opacities[..], time, flicker, math);
      needsUpdate := true;
      uploads := uploads + [opacities[..]];
      uniformTime := time;
    }
  }
}

/**
 * The quantum (orbital cloud) view of an atom: the axis of a p orbital, the
 * particle cloud sampled around it, the lobes, which visuals each orbital
 * kind produces, the duplicate-free material registries and the per-frame
 * time and opacity updates. Random draws and the sine of the pulse are
 * inputs; the Gaussian sampler itself is not modelled.
 */
module QuantumAtomRenderer {
  import opened Wrappers
  import opened JsMath
  import opened OrbitalModel
  import Orbitals

  datatype Vec3 = Vec3(x: real, y: real, z: real) {
    function Scale(k: real): Vec3 {
      Vec3(x * k, y * k, z * k)
    }

    function Add(other: Vec3): Vec3 {
      Vec3(x + other.x, y + other.y, z + other.z)
    }

    function Dot(other: Vec3): real {
      x * other.x + y * other.y + z * other.z
    }
  }

  const Origin := Vec3(0.0, 0.0, 0.0)

  /** One of the three coordinate unit vectors. */
  predicate IsUnitAxis(v: Vec3) {
    v == Vec3(1.0, 0.0, 0.0) || v == Vec3(0.0, 1.0, 0.0) || v == Vec3(0.0, 0.0, 1.0)
  }

  /** Along a coordinate axis, scaling by k moves k along that axis, and scaling by k and by -k cancel. */
  lemma ScaleAlongAxis(axis: Vec3, k: real)
    requires IsUnitAxis(axis)
    ensures axis.Scale(k).Dot(axis) == k
    ensures axis.Scale(k).Add(axis.Scale(-k)) == Origin
  {
    if axis == Vec3(1.0, 0.0, 0.0) {
      assert axis.Scale(k) == Vec3(k, 0.0, 0.0);
      assert axis.Scale(-k) == Vec3(-k, 0.0, 0.0);
    } else if axis == Vec3(0.0, 1.0, 0.0) {
      assert axis.Scale(k) == Vec3(0.0, k, 0.0);
      assert axis.Scale(-k) == Vec3(0.0, -k, 0.0);
    } else {
      assert axis.Scale(k) == Vec3(0.0, 0.0, k);
      assert axis.Scale(-k) == Vec3(0.0, 0.0, -k);
    }
  }

  /** The principal axis of a p orientation; pz and every other orientation fall back to z. */
  function AxisFromOrientation(o: Orientation): (v: Vec3)
    ensures v == Vec3(1.0, 0.0, 0.0) <==> o == Px
    ensures v == Vec3(0.0, 1.0, 0.0) <==> o == Py
    ensures v == Vec3(0.0, 0.0, 1.0) <==> o != Px && o != Py
    ensures IsUnitAxis(v)
  {
    match o
    case Px => Vec3(1.0, 0.0, 0.0)
    case Py => Vec3(0.0, 1.0, 0.0)
    case _ => Vec3(0.0, 0.0, 1.0)
  }

  /** The axis a particle cloud is drawn along: y when the orbital has no orientation. */
  function ParticleAxis(orientation: Option<Orientation>): (v: Vec3)
    ensures orientation.None? ==> v == Vec3(0.0, 1.0, 0.0)
    ensures orientation.Some? ==> v == AxisFromOrientation(orientation.value)
    ensures IsUnitAxis(v)
  {
    match orientation
    case None => Vec3(0.0, 1.0, 0.0)
    case Some(o) => AxisFromOrientation(o)
  }

  /** The number of particles of a cloud: `count * densityScale`, rounded half up. */
  function ParticleCount(count: nat, densityScale: real): (n: nat)
    requires densityScale >= 0.0
    ensures n as real <= count as real * densityScale + 0.5 < n as real + 1.0
  {
    Round(count as real * densityScale)
  }

  lemma CloudSizes()
    ensures ParticleCount(650, 1.0) == 650
    ensures ParticleCount(650, 1.35) == 878
  {
  }

  /** The signed distance along the axis before jitter: a magnitude from [0.4r, 1.2r), the sign by a coin. */
  function AxialOffset(radius: real, signDraw: real, axialDraw: real): (d: real)
    ensures radius > 0.0 && 0.0 <= axialDraw < 1.0 ==>
      (0.4 * radius <= d < 1.2 * radius) || (-1.2 * radius < d <= -0.4 * radius)
    ensures radius > 0.0 && 0.0 <= axialDraw ==> (d > 0.0 <==> signDraw > 0.5)
  {
    var sign := if signDraw > 0.5 then 1.0 else -1.0;
    (0.4 + axialDraw * 0.8) * radius * sign
  }

  /** One particle: the axial offset along the axis plus a Gaussian jitter of deviation 0.18r on all three coordinates. */
  function ParticleSample(axis: Vec3, radius: real, signDraw: real, axialDraw: real, gauss: Vec3): Vec3 {
    var axial := AxialOffset(radius, signDraw, axialDraw);
    axis.Scale(axial).Add(Vec3(gauss.x * radius * 0.18, gauss.y * radius * 0.18, gauss.z * radius * 0.18))
  }

  /**
   * Without jitter a particle lies on its axis, at a signed distance whose
   * magnitude is between 0.4r and 1.2r.
   */
  lemma SampleWithoutJitter(orientation: Option<Orientation>, radius: real, signDraw: real, axialDraw: real)
    requires radius > 0.0 && 0.0 <= axialDraw < 1.0
    ensures var axis := ParticleAxis(orientation);
      ParticleSample(axis, radius, signDraw, axialDraw, Origin) == axis.Scale(AxialOffset(radius, signDraw, axialDraw))
    ensures var d := AxialOffset(radius, signDraw, axialDraw);
      ParticleAxis(orientation).Scale(d).Dot(ParticleAxis(orientation)) == d &&
      ((0.4 * radius <= d < 1.2 * radius) || (-1.2 * radius < d <= -0.4 * radius))
  {
    var axis := ParticleAxis(orientation);
    var d := AxialOffset(radius, signDraw, axialDraw);
    UnjitteredOnAxis(axis, radius, signDraw, axialDraw, d);
  }

  lemma UnjitteredOnAxis(axis: Vec3, radius: real, signDraw: real, axialDraw: real, d: real)
    requires IsUnitAxis(axis) && d == AxialOffset(radius, signDraw, axialDraw)
    ensures ParticleSample(axis, radius, signDraw, axialDraw, Origin) == axis.Scale(d)
    ensures axis.Scale(d).Dot(axis) == d
  {
    var jitter := Vec3(Origin.x * radius * 0.18, Origin.y * radius * 0.18, Origin.z * radius * 0.18);
    assert jitter == Origin;
    ScaleAlongAxis(axis, d);
  }

  /** The three coordinates of particle `i` sit at positions 3i, 3i+1 and 3i+2 of `a`. */
  ghost predicate StoresAt(a: array<real>, i: nat, p: Vec3)
    reads a
  {
    3 * i + 2 < a.Length && a[3 * i] == p.x && a[3 * i + 1] == p.y && a[3 * i + 2] == p.z
  }

  /** The position buffer of a p orbital's particle cloud, filled particle by particle. */
  method CreateParticleGeometry(count: nat, radius: real, orientation: Option<Orientation>, densityScale: real,
                                signDraws: nat -> real, axialDraws: nat -> real, gauss: nat -> Vec3)
    returns (positions: array<real>)
    requires densityScale >= 0.0
    ensures fresh(positions)
    ensures positions.Length == 3 * ParticleCount(count, densityScale)
    ensures forall i :: 0 <= i < ParticleCount(count, densityScale) ==>
      StoresAt(positions, i, ParticleSample(ParticleAxis(orientation), radius, signDraws(i), axialDraws(i), gauss(i)))
  {
    var particleCount := ParticleCount(count, densityScale);
    positions := new real[particleCount * 3];
    var axis := ParticleAxis(orientation);
    for i := 0 to particleCount
      invariant forall k :: 0 <= k < i ==>
        StoresAt(positions, k, ParticleSample(axis, radius, signDraws(k), axialDraws(k), gauss(k)))
    {
      var position := ParticleSample(axis, radius, signDraws(i), axialDraws(i), gauss(i));
      positions[i * 3] := position.x;
      positions[i * 3 + 1] := position.y;
      positions[i * 3 + 2] := position.z;
    }
  }

  /** The two lobe centres of a p orbital, 0.7r forward and backward along its axis. */
  function LobeCentres(orientation: Orientation, radius: real): (Vec3, Vec3) {
    var axis := AxisFromOrientation(orientation);
    (axis.Scale(radius * 0.7), axis.Scale(-radius * 0.7))
  }

  /** The lobes are mirror images through the nucleus, at +-0.7r along the axis. */
  lemma LobesSymmetric(orientation: Orientation, radius: real)
    ensures var lobes := LobeCentres(orientation, radius);
      var axis := AxisFromOrientation(orientation);
      lobes.0.Add(lobes.1) == Origin &&
      lobes.0.Dot(axis) == 0.7 * radius &&
      lobes.1.Dot(axis) == -0.7 * radius &&
      lobes.0 == axis.Scale(lobes.0.Dot(axis)) &&
      lobes.1 == axis.Scale(lobes.1.Dot(axis))
  {
    var k := radius * 0.7;
    match orientation
    case Px =>
      assert LobeCentres(orientation, radius) == (Vec3(k, 0.0, 0.0), Vec3(-k, 0.0, 0.0));
    case Py =>
      assert LobeCentres(orientation, radius) == (Vec3(0.0, k, 0.0), Vec3(0.0, -k, 0.0));
    case _ =>
      assert LobeCentres(orientation, radius) == (Vec3(0.0, 0.0, k), Vec3(0.0, 0.0, -k));
  }

  /** The axis the lobes use: an orbital without orientation takes the fallback branch, z. */
  function LobeOrientation(orientation: Option<Orientation>): Orientation {
    orientation.GetOr(Pz)
  }

  function VolumeBaseOpacity(isValence: bool): real {
    if isValence then 0.45 else 0.32
  }

  /** What one orbital puts in the scene. */
  datatype Visual =
    | NoiseVolume(position: Vec3, scale: real, baseOpacity: real)
    | ParticleCloud(count: nat, cloudRadius: real, orientation: Option<Orientation>, densityScale: real,
                    phase: real, cloudBaseOpacity: real, opacityRange: real, size: real)
    | KnotPlaceholder(knotRadius: real, tube: real, opacity: real, emissiveIntensity: real)

  /** The volume of one noise sphere: an s orbital is scaled by r, a lobe by 0.6r. */
  function Volume(o: Orbital, position: Vec3, isValence: bool): Visual {
    NoiseVolume(position, if o.kind == S then o.radius else o.radius * 0.6, VolumeBaseOpacity(isValence))
  }

  /**
   * The visuals of one orbital. `isValence` is the flag the renderer reads
   * from the orbital; it is an input because the orbital record carries no
   * such field.
   */
  function RenderOrbital(o: Orbital, isValence: bool): (vs: seq<Visual>)
    ensures o.kind == S ==> vs == [NoiseVolume(Origin, o.radius, VolumeBaseOpacity(isValence))]
    ensures o.kind == P ==> |vs| == 3 && vs[0].NoiseVolume? && vs[1].NoiseVolume? && vs[2].ParticleCloud?
    ensures o.kind == P ==> (vs[0].position.Add(vs[1].position) == Origin &&
                             vs[0].position.Dot(AxisFromOrientation(LobeOrientation(o.orientation))) == 0.7 * o.radius &&
                             vs[0].scale == vs[1].scale == 0.6 * o.radius)
    ensures o.kind == P ==> var axis := AxisFromOrientation(LobeOrientation(o.orientation));
      vs[0].position == axis.Scale(0.7 * o.radius) && vs[1].position == axis.Scale(-0.7 * o.radius)
    ensures o.kind == P ==> (vs[2].count == 650 && vs[2].cloudRadius == 0.92 * o.radius &&
                             vs[2].orientation == o.orientation && vs[2].phase == o.phaseOffset &&
                             vs[2].densityScale == (if isValence then 1.35 else 1.0))
    ensures o.kind == D ==> |vs| == 1 && vs[0].KnotPlaceholder? && vs[0].knotRadius == 0.5 * o.radius
    ensures forall v :: v in vs && v.NoiseVolume? ==> v.baseOpacity == VolumeBaseOpacity(isValence)
  {
    match o.kind
    case S => [Volume(o, Origin, isValence)]
    case P =>
      var lobes := LobeCentres(LobeOrientation(o.orientation), o.radius);
      LobesSymmetric(LobeOrientation(o.orientation), o.radius);
      [Volume(o, lobes.0, isValence), Volume(o, lobes.1, isValence),
       ParticleCloud(650, o.radius * 0.92, o.orientation, if isValence then 1.35 else 1.0, o.phaseOffset,
                     if isValence then 0.23 else 0.18, if isValence then 0.12 else 0.08,
                     if isValence then 0.058 else 0.05)]
    case D =>
      [KnotPlaceholder(o.radius * 0.5, o.radius * 0.1, if isValence then 0.32 else 0.25,
                       if isValence then 0.45 else 0.25)]
  }

  /** The visuals of a list of orbitals, in order. */
  function RenderOrbitals(orbitals: seq<Orbital>, isValence: bool): seq<Visual>
    decreases |orbitals|
  {
    if orbitals == [] then [] else RenderOrbital(orbitals[0], isValence) + RenderOrbitals(orbitals[1..], isValence)
  }

  function CountVolumes(vs: seq<Visual>): nat {
    if vs == [] then 0 else (if vs[0].NoiseVolume? then 1 else 0) + CountVolumes(vs[1..])
  }

  function CountClouds(vs: seq<Visual>): nat {
    if vs == [] then 0 else (if vs[0].ParticleCloud? then 1 else 0) + CountClouds(vs[1..])
  }

  lemma CountVolumesAppend(a: seq<Visual>, b: seq<Visual>)
    ensures CountVolumes(a + b) == CountVolumes(a) + CountVolumes(b)
  {
    if a == [] {
      assert a + b == b;
    } else {
      assert (a + b)[1..] == a[1..] + b;
    }
  }

  lemma CountCloudsAppend(a: seq<Visual>, b: seq<Visual>)
    ensures CountClouds(a + b) == CountClouds(a) + CountClouds(b)
  {
    if a == [] {
      assert a + b == b;
    } else {
      assert (a + b)[1..] == a[1..] + b;
    }
  }

  /**
   * Every s orbital contributes one noise volume and every p orbital two,
   * so these many noise materials register; one particle cloud per p orbital.
   */
  lemma {:induction false} RenderedMaterialCounts(orbitals: seq<Orbital>, isValence: bool)
    ensures CountVolumes(RenderOrbitals(orbitals, isValence)) ==
      |Orbitals.OfKind(orbitals, S)| + 2 * |Orbitals.OfKind(orbitals, P)|
    ensures CountClouds(RenderOrbitals(orbitals, isValence)) == |Orbitals.OfKind(orbitals, P)|
    decreases |orbitals|
  {
    if orbitals != [] {
      var head := RenderOrbital(orbitals[0], isValence);
      RenderedMaterialCounts(orbitals[1..], isValence);
      CountVolumesAppend(head, RenderOrbitals(orbitals[1..], isValence));
      CountCloudsAppend(head, RenderOrbitals(orbitals[1..], isValence));
      assert orbitals == [orbitals[0]] + orbitals[1..];
      Orbitals.OfKindAppend([orbitals[0]], orbitals[1..], S);
      Orbitals.OfKindAppend([orbitals[0]], orbitals[1..], P);
      OrbitalMaterialCounts(orbitals[0], isValence);
    }
  }

  lemma OrbitalMaterialCounts(o: Orbital, isValence: bool)
    ensures CountVolumes(RenderOrbital(o, isValence)) == (match o.kind case S => 1 case P => 2 case D => 0)
    ensures CountClouds(RenderOrbital(o, isValence)) == (if o.kind == P then 1 else 0)
  {
    var vs := RenderOrbital(o, isValence);
    if o.kind == P {
      var last := vs[1..][1..];
      assert last == [vs[2]] && last[1..] == [];
      assert CountVolumes(last) == 0 && CountClouds(last) == 1;
      assert CountVolumes(vs[1..]) == 1 && CountClouds(vs[1..]) == 1;
    } else {
      assert vs[1..] == [];
    }
  }

  /**
   * The orbital record carries no valence flag, so the renderer always reads
   * it as unset: every volume stores base opacity 0.32, a cloud keeps its 650
   * particles with base 0.18, range 0.08 and size 0.05, and a knot is drawn at
   * opacity 0.25.
   */
  lemma RenderedUnflagged(o: Orbital)
    ensures var vs := RenderOrbital(o, false);
      && (forall v :: v in vs && v.NoiseVolume? ==> v.baseOpacity == 0.32)
      && (o.kind == P ==> |vs| == 3 && ParticleCount(vs[2].count, vs[2].densityScale) == 650 &&
                          vs[2].cloudBaseOpacity == 0.18 && vs[2].opacityRange == 0.08 && vs[2].size == 0.05)
      && (o.kind == D ==> |vs| == 1 && vs[0].opacity == 0.25 && vs[0].emissiveIntensity == 0.25)
  {
    CloudSizes();
  }

  /** The tilt of an orbital set about x: 0.06 radians for the valence shell, none otherwise. */
  function SetTilt(isValence: bool): (angle: real)
    ensures angle != 0.0 <==> isValence
  {
    if isValence then 0.06 else 0.0
  }

  // ---- per-frame animation ----

  function MotionScale(reducedMotion: bool): (r: real)
    ensures 0.0 < r <= 1.0
    ensures r < 1.0 <==> reducedMotion
  {
    if reducedMotion then 0.5 else 1.0
  }

  /** The frame's time base: the clock scaled by speed, intensity and motion. */
  function TimeBase(elapsed: real, animationSpeed: real, intensity: real, reducedMotion: bool): (r: real)
    ensures elapsed == 0.0 || animationSpeed == 0.0 || intensity == 0.0 ==> r == 0.0
  {
    elapsed * animationSpeed * intensity * MotionScale(reducedMotion)
  }

  lemma ReducedMotionHalvesTime(elapsed: real, animationSpeed: real, intensity: real)
    ensures TimeBase(elapsed, animationSpeed, intensity, true) == 0.5 * TimeBase(elapsed, animationSpeed, intensity, false)
  {
  }

  /** The time uniform of the noise material at `index`. */
  function NoiseTime(t: real, index: nat, phase: Option<real>): real {
    t + index as real * 0.12 + phase.GetOr(0.0)
  }

  /** Materials with the same phase are 0.12 apart in time per registry position. */
  lemma NoiseTimesStaggered(t: real, i: nat, j: nat, phase: Option<real>)
    requires i < j
    ensures NoiseTime(t, j, phase) - NoiseTime(t, i, phase) == 0.12 * (j - i) as real
  {
  }

  /** The opacity of a noise material, from its stored base opacity. */
  function NoiseOpacity(base: real, intensity: real, motionScale: real): (o: real)
    ensures o <= 1.0
    ensures base >= 0.0 && intensity >= 0.0 && motionScale >= 0.0 ==> o >= 0.0
    ensures o == 1.0 || o == base * (0.7 + intensity * 0.5) * (motionScale * 0.75 + 0.35)
  {
    MinReal(1.0, base * (0.7 + intensity * 0.5) * (motionScale * 0.75 + 0.35))
  }

  /** Reduced motion never makes a noise volume more opaque, and full motion at nominal intensity brightens it by 1.2 * 1.1. */
  lemma NoiseOpacityMotion(base: real, intensity: real)
    requires base >= 0.0 && intensity >= 0.0
    ensures NoiseOpacity(base, intensity, 0.5) <= NoiseOpacity(base, intensity, 1.0)
    ensures base <= 0.45 ==> NoiseOpacity(base, 1.0, 1.0) == base * 1.2 * 1.1
  {
    assert base * (0.7 + intensity * 0.5) * 0.725 <= base * (0.7 + intensity * 0.5) * 1.1;
  }

  /** The argument of the pulse sine of the particle material at `index`. */
  function PulseAngle(t: real, phase: Option<real>, index: nat): real {
    t * 0.9 + phase.GetOr(0.0) + index as real * 0.35
  }

  /** The opacity of a particle cloud, for a given value of the pulse sine. */
  function ParticleOpacity(base: real, range: real, intensity: real, motionScale: real, wave: real): (o: real)
    ensures o <= 1.0
    ensures o == 1.0 || o == base * (0.55 + intensity * 0.6) + range * (motionScale * 0.8 + 0.25) * wave
  {
    MinReal(1.0, base * (0.55 + intensity * 0.6) + range * (motionScale * 0.8 + 0.25) * wave)
  }

  /**
   * With the configured base and range of either kind of cloud, an intensity
   * of at least 0.5 and a motion scale of 0.5 or 1, a cloud never fades out.
   */
  lemma CloudsStayVisible(isValence: bool, intensity: real, motionScale: real, wave: real)
    requires intensity >= 0.5
    requires motionScale == 0.5 || motionScale == 1.0
    requires -1.0 <= wave <= 1.0
    ensures ParticleOpacity(if isValence then 0.23 else 0.18, if isValence then 0.12 else 0.08,
                            intensity, motionScale, wave) > 0.0
  {
    var base := if isValence then 0.23 else 0.18;
    var range := if isValence then 0.12 else 0.08;
    var damping := motionScale * 0.8 + 0.25;
    assert base * (0.55 + intensity * 0.6) >= base * 0.85;
    assert range * damping * wave >= -(range * damping) by {
      assert range * damping >= 0.0;
      assert range * damping * (wave + 1.0) >= 0.0;
    }
  }

  /** The shader material of one noise volume. */
  class NoiseMaterial {
    var phase: Option<real>
    var baseOpacity: Option<real>
    var opacity: real
    var time: real

    /** A freshly mounted volume material: the opacity given in the scene, no phase, no stored base. */
    constructor(isValence: bool)
      ensures phase == None && baseOpacity == None && time == 0.0
      ensures opacity == (if isValence then 0.45 else 0.3)
    {
      phase := None;
      baseOpacity := None;
      opacity := if isValence then 0.45 else 0.3;
      time := 0.0;
    }

    /** The volume's mount effect: the base opacity is stored and applied. */
    method Prepare(isValence: bool)
      modifies this
      ensures baseOpacity == Some(VolumeBaseOpacity(isValence)) && opacity == VolumeBaseOpacity(isValence)
      ensures phase == old(phase) && time == old(time)
    {
      opacity := VolumeBaseOpacity(isValence);
      baseOpacity := Some(opacity);
    }
  }

  /** The points material of one particle cloud. */
  class PointsMaterial {
    var phase: Option<real>
    var baseOpacity: Option<real>
    var opacityRange: Option<real>
    var opacity: real
    var size: real

    /** A freshly mounted cloud material: opacity 0.22, the library's default size of 1, nothing stored. */
    constructor()
      ensures phase == None && baseOpacity == None && opacityRange == None
      ensures opacity == 0.22 && size == 1.0
    {
      phase := None;
      baseOpacity := None;
      opacityRange := None;
      opacity := 0.22;
      size := 1.0;
    }

    /** The cloud's mount effect: phase, base opacity, range and size are stored. */
    method Prepare(phaseOffset: real, isValence: bool)
      modifies this
      ensures phase == Some(phaseOffset)
      ensures baseOpacity == Some(if isValence then 0.23 else 0.18)
      ensures opacityRange == Some(if isValence then 0.12 else 0.08)
      ensures size == (if isValence then 0.058 else 0.05)
      ensures opacity == old(opacity)
    {
      phase := Some(phaseOffset);
      baseOpacity := Some(if isValence then 0.23 else 0.18);
      opacityRange := Some(if isValence then 0.12 else 0.08);
      size := if isValence then 0.058 else 0.05;
    }
  }

  ghost predicate Distinct<T>(s: seq<T>) {
    forall i, j :: 0 <= i < j < |s| ==> s[i] != s[j]
  }

  /** The renderer's two material lists, animated every frame. */
  class MaterialRegistry {
    var noise: seq<NoiseMaterial>
    var particles: seq<PointsMaterial>

    ghost predicate Valid()
      reads this
    {
      Distinct(noise) && Distinct(particles)
    }

    constructor()
      ensures noise == [] && particles == [] && Valid()
    {
      noise := [];
      particles := [];
    }

    /**
     * Adds a noise material unless it is already listed. A new material keeps
     * a phase it already has; otherwise it gets `draw * 2 pi`.
     */
    method RegisterNoise(m: NoiseMaterial, draw: real)
      requires Valid()
      modifies this, m
      ensures Valid()
      ensures particles == old(particles)
      ensures old(m in noise) ==> noise == old(noise) && m.phase == old(m.phase)
      ensures !old(m in noise) ==> (noise == old(noise) + [m] &&
                                    m.phase == Some(old(m.phase).GetOr(Orbitals.PhaseOffset(draw))))
      ensures m.baseOpacity == old(m.baseOpacity) && m.opacity == old(m.opacity) && m.time == old(m.time)
    {
      if m !in noise {
        m.phase := Some(m.phase.GetOr(Orbitals.PhaseOffset(draw)));
        noise := noise + [m];
      }
    }

    /** Adds a particle material unless it is already listed. */
    method RegisterParticle(m: PointsMaterial)
      requires Valid()
      modifies this
      ensures Valid()
      ensures noise == old(noise)
      ensures particles == if old(m in particles) then old(particles) else old(particles) + [m]
    {
      if m !in particles {
        particles := particles + [m];
      }
    }

    /**
     * One frame: every noise material gets its time uniform and an opacity
     * from its stored base opacity (its current opacity when none is stored);
     * every particle material gets its pulsing opacity. `sin` stands for the
     * sine of the pulse.
     */
    method Frame(elapsed: real, animationSpeed: real, intensity: real, reducedMotion: bool, sin: real -> real)
      requires Valid()
      modifies noise, particles
      ensures forall i :: 0 <= i < |noise| ==>
        noise[i].time == NoiseTime(TimeBase(elapsed, animationSpeed, intensity, reducedMotion), i, old(noise[i].phase)) &&
        noise[i].opacity == NoiseOpacity(old(noise[i].baseOpacity).GetOr(old(noise[i].opacity)), intensity, MotionScale(reducedMotion))
      ensures forall i :: 0 <= i < |noise| ==>
        noise[i].phase == old(noise[i].phase) && noise[i].baseOpacity == old(noise[i].baseOpacity)
      ensures forall i :: 0 <= i < |particles| ==>
        particles[i].opacity == ParticleOpacity(old(particles[i].baseOpacity).GetOr(0.18), old(particles[i].opacityRange).GetOr(0.08),
                                                intensity, MotionScale(reducedMotion),
                                                sin(PulseAngle(TimeBase(elapsed, animationSpeed, intensity, reducedMotion), old(particles[i].phase), i)))
      ensures forall i :: 0 <= i < |particles| ==>
        particles[i].phase == old(particles[i].phase) && particles[i].baseOpacity == old(particles[i].baseOpacity) &&
        particles[i].opacityRange == old(particles[i].opacityRange) && particles[i].size == old(particles[i].size)
    {
      var motionScale := MotionScale(reducedMotion);
      var t := TimeBase(elapsed, animationSpeed, intensity, reducedMotion);
      AnimateNoise(t, intensity, motionScale);
      AnimateParticles(t, intensity, motionScale, sin);
    }

    method AnimateNoise(t: real, intensity: real, motionScale: real)
      requires Valid()
      modifies noise
      ensures forall i :: 0 <= i < |noise| ==>
        noise[i].time == NoiseTime(t, i, old(noise[i].phase)) &&
        noise[i].opacity == NoiseOpacity(old(noise[i].baseOpacity).GetOr(old(noise[i].opacity)), intensity, motionScale)
      ensures forall i :: 0 <= i < |noise| ==>
        noise[i].phase == old(noise[i].phase) && noise[i].baseOpacity == old(noise[i].baseOpacity)
    {
      for index := 0 to |noise|
        invariant forall i :: 0 <= i < index ==>
          noise[i].time == NoiseTime(t, i, old(noise[i].phase)) &&
          noise[i].opacity == NoiseOpacity(old(noise[i].baseOpacity).GetOr(old(noise[i].opacity)), intensity, motionScale)
        invariant forall i :: index <= i < |noise| ==> noise[i].opacity == old(noise[i].opacity)
        invariant forall i :: 0 <= i < |noise| ==>
          noise[i].phase == old(noise[i].phase) && noise[i].baseOpacity == old(noise[i].baseOpacity)
      {
        var mat := noise[index];
        var baseOpacity := mat.baseOpacity.GetOr(mat.opacity);
        mat.time := NoiseTime(t, index, mat.phase);
        mat.opacity := NoiseOpacity(baseOpacity, intensity, motionScale);
      }
    }

    method AnimateParticles(t: real, intensity: real, motionScale: real, sin: real -> real)
      requires Valid()
      modifies particles
      ensures forall i :: 0 <= i < |particles| ==>
        particles[i].opacity == ParticleOpacity(old(particles[i].baseOpacity).GetOr(0.18), old(particles[i].opacityRange).GetOr(0.08),
                                                intensity, motionScale, sin(PulseAngle(t, old(particles[i].phase), i)))
      ensures forall i :: 0 <= i < |particles| ==>
        particles[i].phase == old(particles[i].phase) && particles[i].baseOpacity == old(particles[i].baseOpacity) &&
        particles[i].opacityRange == old(particles[i].opacityRange) && particles[i].size == old(particles[i].size)
    {
      for index := 0 to |particles|
        invariant forall i :: 0 <= i < index ==>
          particles[i].opacity == ParticleOpacity(old(particles[i].baseOpacity).GetOr(0.18), old(particles[i].opacityRange).GetOr(0.08),
                                                  intensity, motionScale, sin(PulseAngle(t, old(particles[i].phase), i)))
        invariant forall i :: 0 <= i < |particles| ==>
          particles[i].phase == old(particles[i].phase) && particles[i].baseOpacity == old(particles[i].baseOpacity) &&
          particles[i].opacityRange == old(particles[i].opacityRange) && particles[i].size == old(particles[i].size)
      {
        var mat := particles[index];
        var baseOpacity := mat.baseOpacity.GetOr(0.18);
        var opacityRange := mat.opacityRange.GetOr(0.08);
        mat.opacity := ParticleOpacity(baseOpacity, opacityRange, intensity, motionScale, sin(PulseAngle(t, mat.phase, index)));
      }
    }
  }
}

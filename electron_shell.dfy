/**
 * The classical (ring) view of one shell: angular speed, the elliptical orbit
 * with its wobble and random tilt, the 96-point guide ring, the even spacing
 * of the electrons and the angle each electron is drawn at in a frame. The
 * cosine and sine that turn angles into coordinates are not modelled.
 */
module ElectronShell {
  import opened JsMath
  import opened SettingsModel

  /** The shell's angular speed: 0.6 times the animation speed, 1.4 times faster on the valence shell. */
  function Speed(animationSpeed: real, isValence: bool): (r: real)
    ensures animationSpeed > 0.0 ==> 0.6 * animationSpeed <= r <= 0.84 * animationSpeed
  {
    0.6 * animationSpeed * (if isValence then 1.4 else 1.0)
  }

  lemma ValenceShellsAreFaster(animationSpeed: real)
    requires animationSpeed > 0.0
    ensures Speed(animationSpeed, true) == 1.4 * Speed(animationSpeed, false)
    ensures 0.0 < Speed(animationSpeed, false) < Speed(animationSpeed, true)
  {
  }

  /** Euler angles of the orbit plane. */
  datatype Tilt = Tilt(x: real, y: real, z: real)

  datatype Orbit = Orbit(tilt: Tilt, wobble: real, xRadius: real, zRadius: real)

  function Eccentricity(mode: AtomMode): real {
    if mode == Realistic then 0.35 else 0.05
  }

  /** The tilt from three `Math.random()` draws. */
  function TiltFromDraws(dx: real, dy: real, dz: real): (t: Tilt)
    ensures 0.0 <= dx < 1.0 ==> -0.3 <= t.x < 0.3
    ensures 0.0 <= dy < 1.0 ==> -0.3 <= t.y < 0.3
    ensures 0.0 <= dz < 1.0 ==> -0.2 <= t.z < 0.2
  {
    Tilt((dx - 0.5) * 0.6, (dy - 0.5) * 0.6, (dz - 0.5) * 0.4)
  }

  /** The orbit of a shell of radius `radius`: an ellipse stretched along x and squeezed along z. */
  function MakeOrbit(radius: real, mode: AtomMode, dx: real, dy: real, dz: real): (o: Orbit)
    ensures mode == Realistic ==> o.xRadius == 1.14 * radius && o.zRadius == 0.895 * radius && o.wobble == 0.18
    ensures mode == Simplified ==> o.xRadius == 1.02 * radius && o.zRadius == 0.985 * radius && o.wobble == 0.06
    ensures radius > 0.0 ==> o.zRadius < radius < o.xRadius
    ensures o.tilt == TiltFromDraws(dx, dy, dz)
  {
    var eccentricity := Eccentricity(mode);
    var wobble := if mode == Realistic then 0.18 else 0.06;
    var xScale := 1.0 + eccentricity * 0.4;
    var zScale := 1.0 - eccentricity * 0.3;
    assert mode == Realistic ==> xScale == 1.14 && zScale == 0.895;
    assert mode == Simplified ==> xScale == 1.02 && zScale == 0.985;
    StretchAndSqueeze(radius, xScale, zScale);
    Orbit(TiltFromDraws(dx, dy, dz), wobble, radius * xScale, radius * zScale)
  }

  /** Scaling a positive radius by a factor above one and one below one puts it between the two. */
  lemma StretchAndSqueeze(radius: real, xScale: real, zScale: real)
    requires zScale < 1.0 < xScale
    ensures radius > 0.0 ==> radius * zScale < radius < radius * xScale
  {
    if radius > 0.0 {
      MulLess(zScale, 1.0, radius);
      MulLess(1.0, xScale, radius);
    }
  }

  /** The realistic mode is the more eccentric and the more wobbly one. */
  lemma RealisticIsMoreEccentric(radius: real, dx: real, dy: real, dz: real)
    requires radius > 0.0
    ensures var r, s := MakeOrbit(radius, Realistic, dx, dy, dz), MakeOrbit(radius, Simplified, dx, dy, dz);
      r.xRadius > s.xRadius && r.zRadius < s.zRadius && r.wobble > s.wobble
  {
  }

  /** `n` angles (i / n) * 2 pi, as used for the guide ring and the electron offsets. */
  function EvenlySpaced(n: nat): (a: seq<real>)
    ensures |a| == n
    ensures n > 0 ==> a[0] == 0.0
    ensures forall i :: 0 <= i < n ==> 0.0 <= a[i] < 2.0 * Pi
    ensures forall i, j :: 0 <= i < j < n ==> a[i] < a[j]
    ensures forall i :: 0 <= i < n - 1 ==> a[i + 1] - a[i] == 2.0 * Pi / n as real
  {
    var a := seq(n, i requires 0 <= i < n => (i as real / n as real) * Pi * 2.0);
    forall i | 0 <= i < n ensures 0.0 <= a[i] < 2.0 * Pi {
      FractionBelowOne(i, n);
    }
    forall i, j | 0 <= i < j < n ensures a[i] < a[j] {
      FractionIncreasing(i, j, n);
    }
    forall i | 0 <= i < n - 1 ensures a[i + 1] - a[i] == 2.0 * Pi / n as real {
      FractionStep(i, n);
    }
    a
  }

  lemma FractionBelowOne(i: nat, n: nat)
    requires i < n
    ensures 0.0 <= (i as real / n as real) * Pi * 2.0 < 2.0 * Pi
  {
    assert i as real / n as real < 1.0;
  }

  lemma FractionIncreasing(i: nat, j: nat, n: nat)
    requires i < j < n
    ensures (i as real / n as real) * Pi * 2.0 < (j as real / n as real) * Pi * 2.0
  {
    assert i as real / n as real < j as real / n as real;
  }

  lemma FractionStep(i: nat, n: nat)
    requires i + 1 < n
    ensures ((i + 1) as real / n as real) * Pi * 2.0 - (i as real / n as real) * Pi * 2.0 == 2.0 * Pi / n as real
  {
    assert (i + 1) as real / n as real - i as real / n as real == 1.0 / n as real;
  }

  const RingPoints: nat := 96

  /** The angles of the dashed guide ring, sampled once per orbit. */
  function RingAngles(): (a: seq<real>)
    ensures |a| == RingPoints
  {
    EvenlySpaced(RingPoints)
  }

  /** The phase offset of each of a shell's `count` electrons. */
  function ElectronOffsets(count: nat): (a: seq<real>)
    ensures |a| == count
  {
    EvenlySpaced(count)
  }

  /** The angle of an electron in a frame: from the elapsed time alone, never accumulated. */
  function FrameAngle(elapsedTime: real, speed: real, offset: real): (r: real)
    ensures elapsedTime == 0.0 || speed == 0.0 ==> r == offset
  {
    elapsedTime * speed + offset
  }

  /** In every frame, neighbouring electrons of a shell stay 2 pi / n apart. */
  lemma ElectronsStayEvenlySpaced(count: nat, elapsedTime: real, speed: real)
    ensures var o := ElectronOffsets(count);
      forall i :: 0 <= i < count - 1 ==>
        FrameAngle(elapsedTime, speed, o[i + 1]) - FrameAngle(elapsedTime, speed, o[i]) == 2.0 * Pi / count as real
  {
  }

  /**
   * The per-frame callback: child `i` of the electron group is placed at the
   * angle of electron `i`. The array holds that angle, from which the
   * position is computed.
   */
  method UpdateElectronAngles(angles: array<real>, clockTime: real, speed: real, offsets: seq<real>)
    requires angles.Length <= |offsets|
    modifies angles
    ensures forall i :: 0 <= i < angles.Length ==> angles[i] == FrameAngle(clockTime, speed, offsets[i])
  {
    var elapsed := clockTime * speed;
    for idx := 0 to angles.Length
      invariant forall i :: 0 <= i < idx ==> angles[i] == FrameAngle(clockTime, speed, offsets[i])
    {
      angles[idx] := elapsed + offsets[idx];
    }
  }
}

/**
 * The quantum view of a molecule's bonds: the clamped approach distances,
 * the electron bias toward the heavier partner, the 36-sample electron
 * density strip with its cool-to-warm colouring, the approach and pulse
 * interpolations and one view per bond. Sines, cosines and the two strip
 * colours are inputs.
 */
module QuantumMoleculeRenderer {
  import opened Wrappers
  import opened JsMath
  import opened AtomModel
  import opened SettingsModel
  import opened ElectronShell
  import opened QuantumAtomRenderer

  /** `Math.min(Math.max(value, lo), hi)`: `hi` wins when the bounds cross. */
  function Clamp(value: real, lo: real, hi: real): (r: real)
    ensures r <= hi
    ensures lo <= hi ==> lo <= r
    ensures lo <= value <= hi ==> r == value
    ensures value <= lo <= hi ==> r == lo
    ensures hi <= value ==> r == hi
  {
    MinReal(MaxReal(value, lo), hi)
  }

  lemma ClampMonotone(a: real, b: real, lo: real, hi: real)
    requires a <= b
    ensures Clamp(a, lo, hi) <= Clamp(b, lo, hi)
  {
  }

  /** How far apart the two blobs start: 3.1 - 1.2 * strength, clamped to [1.4, 3.1]. */
  function StartDistance(strength: real): (d: real)
    ensures 1.4 <= d <= 3.1
    ensures strength == 0.0 ==> d == 3.1
    ensures strength == 1.0 ==> d == 1.9
    ensures 0.0 <= strength <= 1.0 ==> d == 3.1 - strength * 1.2
  {
    Clamp(3.1 - strength * 1.2, 1.4, 3.1)
  }

  /** How close the two blobs get: 1.15 - 0.35 * strength, clamped to [0.75, 1.4]. */
  function EndDistance(strength: real): (d: real)
    ensures 0.75 <= d <= 1.4
    ensures strength == 0.0 ==> d == 1.15
    ensures strength == 1.0 ==> d == 0.8
    ensures 0.0 <= strength <= 1.0 ==> d == 1.15 - strength * 0.35
  {
    Clamp(1.15 - strength * 0.35, 0.75, 1.4)
  }

  /**
   * Whatever the strength, even outside [0, 1], the blobs end closer than
   * they start; the two clamps meet only at 1.4, which no single strength
   * reaches on both sides.
   */
  lemma ApproachShrinks(strength: real)
    ensures EndDistance(strength) < StartDistance(strength)
  {
    if EndDistance(strength) == 1.4 {
      assert 1.15 - strength * 0.35 >= 1.4;
      assert strength < 0.0;
    }
  }

  /** A stronger bond (within [0, 1]) starts and ends closer. */
  lemma StrongerBondsAreCloser(weak: real, strong: real)
    requires 0.0 <= weak < strong <= 1.0
    ensures StartDistance(strong) < StartDistance(weak)
    ensures EndDistance(strong) < EndDistance(weak)
  {
  }

  /** Which way the shared electrons lean: (toZ - fromZ) / (fromZ + toZ), 0 when both are 0. */
  function ElectronBias(fromZ: int, toZ: int): (b: real)
    ensures fromZ + toZ == 0 ==> b == 0.0
    ensures fromZ >= 0 && toZ >= 0 ==> -1.0 <= b <= 1.0
    ensures fromZ >= 0 && toZ >= 0 ==> (b > 0.0 <==> toZ > fromZ) && (b < 0.0 <==> toZ < fromZ)
  {
    var total := fromZ + toZ;
    if total == 0 then 0.0
    else
      var q := (toZ - fromZ) as real / total as real;
      QuotientFacts(toZ - fromZ, total);
      q
  }

  lemma QuotientFacts(diff: int, total: int)
    requires total != 0
    ensures -total <= diff <= total && total > 0 ==> -1.0 <= diff as real / total as real <= 1.0
    ensures total > 0 ==> (diff as real / total as real > 0.0 <==> diff > 0)
    ensures total > 0 ==> (diff as real / total as real < 0.0 <==> diff < 0)
  {
    if total > 0 {
      var q := diff as real / total as real;
      assert q * total as real == diff as real;
      if q > 0.0 {
        MulLess(0.0, q, total as real);
      } else if q < 0.0 {
        MulLess(q, 0.0, total as real);
      }
      if -total <= diff <= total {
        if q > 1.0 {
          MulLess(1.0, q, total as real);
        }
        if q < -1.0 {
          MulLess(q, -1.0, total as real);
        }
      }
    }
  }

  /** Swapping the ends of a bond flips the bias. */
  lemma BiasAntisymmetric(fromZ: int, toZ: int)
    ensures ElectronBias(toZ, fromZ) == -ElectronBias(fromZ, toZ)
  {
    var total := fromZ + toZ;
    if total != 0 {
      var q := (toZ - fromZ) as real / total as real;
      assert q * total as real == (toZ - fromZ) as real;
      assert (-q) * total as real == (fromZ - toZ) as real;
    }
  }

  function BondBias(bond: Bond): real {
    ElectronBias(bond.from.atomicNumber, bond.to.atomicNumber)
  }

  // ---- the electron density strip ----

  const DensitySamples: nat := 36

  /** The parameter of sample `i`, from 0 at the first sample to 1 at the last. */
  function SampleT(i: nat): real {
    i as real / (DensitySamples - 1) as real
  }

  lemma SampleTRange(i: nat, j: nat)
    requires i <= j < DensitySamples
    ensures SampleT(0) == 0.0 && SampleT(DensitySamples - 1) == 1.0
    ensures 0.0 <= SampleT(i) <= SampleT(j) <= 1.0
  {
  }

  /** How far sample `t` is along the cool-to-warm gradient, shifted toward the bias. */
  function MixAmount(t: real, bias: real): (m: real)
    ensures 0.0 <= m <= 1.0
  {
    Clamp(t + bias * 0.35, 0.0, 1.0)
  }

  /** Along the strip the colour only ever moves toward the warm end. */
  lemma MixNonDecreasing(i: nat, j: nat, bias: real)
    requires i <= j < DensitySamples
    ensures MixAmount(SampleT(i), bias) <= MixAmount(SampleT(j), bias)
  {
    SampleTRange(i, j);
    ClampMonotone(SampleT(i) + bias * 0.35, SampleT(j) + bias * 0.35, 0.0, 1.0);
  }

  /** `a + (b - a) * t`, as the colour and spring interpolations compute it. */
  function Lerp(a: real, b: real, t: real): (r: real)
    ensures t == 0.0 ==> r == a
    ensures t == 1.0 ==> r == b
  {
    a + (b - a) * t
  }

  /** For t in [0, 1] an interpolation stays between its ends. */
  lemma LerpBetween(a: real, b: real, t: real)
    requires 0.0 <= t <= 1.0
    ensures MinReal(a, b) <= Lerp(a, b, t) <= MaxReal(a, b)
  {
    var d := b - a;
    var step := d * t;
    assert Lerp(a, b, t) == a + step;
    if a <= b {
      FractionOf(d, t);
    } else {
      FractionOf(-d, t);
      assert (-d) * t == -step;
    }
  }

  lemma FractionOf(x: real, t: real)
    requires x >= 0.0 && 0.0 <= t <= 1.0
    ensures 0.0 <= x * t <= x
  {
    var p := x * t;
    assert 0.0 <= p by {
      assert x * t >= 0.0 * t;
    }
    assert p <= x by {
      assert x * t <= x * 1.0;
    }
  }

  /** A colour as its red, green and blue channels. */
  function LerpColour(cool: Vec3, warm: Vec3, t: real): Vec3 {
    Vec3(Lerp(cool.x, warm.x, t), Lerp(cool.y, warm.y, t), Lerp(cool.z, warm.z, t))
  }

  /** The position of density sample `t`; `sine` and `cosine` are the values at 2 pi t. */
  function DensityPosition(t: real, bias: real, sine: real, cosine: real): Vec3 {
    Vec3((t - 0.5) * 0.5 + bias * 0.25 * (t - 0.5), (sine * 0.1 + bias * 0.08) * 0.7, cosine * 0.08)
  }

  /**
   * For a bias in [-1, 1] the strip runs left to right: its x grows with t
   * and is mirrored about the middle sample.
   */
  lemma StripRunsAlongBond(t: real, u: real, bias: real)
    requires -1.0 <= bias <= 1.0 && t < u
    ensures DensityPosition(t, bias, 0.0, 0.0).x < DensityPosition(u, bias, 0.0, 0.0).x
    ensures DensityPosition(1.0 - t, bias, 0.0, 0.0).x == -DensityPosition(t, bias, 0.0, 0.0).x
  {
    var k := 0.5 + bias * 0.25;
    assert DensityPosition(t, bias, 0.0, 0.0).x == (t - 0.5) * k;
    assert DensityPosition(u, bias, 0.0, 0.0).x == (u - 0.5) * k;
    MulLess(t - 0.5, u - 0.5, k);
  }

  function SampleAngle(i: nat): real {
    SampleT(i) * Pi * 2.0
  }

  /** The position of sample `i` of the strip. */
  function SamplePosition(i: nat, bias: real, sin: real -> real, cos: real -> real): Vec3 {
    DensityPosition(SampleT(i), bias, sin(SampleAngle(i)), cos(SampleAngle(i)))
  }

  /** The colour of sample `i` of the strip. */
  function SampleColour(i: nat, bias: real, cool: Vec3, warm: Vec3): Vec3 {
    LerpColour(cool, warm, MixAmount(SampleT(i), bias))
  }

  /** Every channel of a sample's colour lies between the cool and the warm value of that channel. */
  lemma SampleColourBetween(i: nat, bias: real, cool: Vec3, warm: Vec3)
    ensures var c := SampleColour(i, bias, cool, warm);
      MinReal(cool.x, warm.x) <= c.x <= MaxReal(cool.x, warm.x) &&
      MinReal(cool.y, warm.y) <= c.y <= MaxReal(cool.y, warm.y) &&
      MinReal(cool.z, warm.z) <= c.z <= MaxReal(cool.z, warm.z)
  {
    var m := MixAmount(SampleT(i), bias);
    LerpBetween(cool.x, warm.x, m);
    LerpBetween(cool.y, warm.y, m);
    LerpBetween(cool.z, warm.z, m);
  }

  /** Writes one triple at positions 3i, 3i+1 and 3i+2, leaving the rest of the buffer alone. */
  method StoreTriple(a: array<real>, i: nat, v: Vec3)
    requires 3 * i + 2 < a.Length
    modifies a
    ensures StoresAt(a, i, v)
    ensures forall k :: 0 <= k < a.Length && (k < 3 * i || 3 * i + 2 < k) ==> a[k] == old(a[k])
    ensures forall k, p :: 0 <= k < i && old(StoresAt(a, k, p)) ==> StoresAt(a, k, p)
  {
    a[i * 3] := v.x;
    a[i * 3 + 1] := v.y;
    a[i * 3 + 2] := v.z;
  }

  /** The strip's position and colour buffers, filled sample by sample. */
  method CreateElectronDensityGeometry(bias: real, sin: real -> real, cos: real -> real, cool: Vec3, warm: Vec3)
    returns (positions: array<real>, colours: array<real>)
    ensures fresh(positions) && fresh(colours)
    ensures positions.Length == colours.Length == 3 * DensitySamples
    ensures forall i :: 0 <= i < DensitySamples ==> StoresAt(positions, i, SamplePosition(i, bias, sin, cos))
    ensures forall i :: 0 <= i < DensitySamples ==> StoresAt(colours, i, SampleColour(i, bias, cool, warm))
  {
    positions := new real[DensitySamples * 3];
    colours := new real[DensitySamples * 3];
    for i := 0 to DensitySamples
      invariant forall k :: 0 <= k < i ==> StoresAt(positions, k, SamplePosition(k, bias, sin, cos))
      invariant forall k :: 0 <= k < i ==> StoresAt(colours, k, SampleColour(k, bias, cool, warm))
    {
      StoreTriple(positions, i, SamplePosition(i, bias, sin, cos));
      assert forall k :: 0 <= k < i + 1 ==> StoresAt(positions, k, SamplePosition(k, bias, sin, cos));
      StoreTriple(colours, i, SampleColour(i, bias, cool, warm));
    }
  }

  // ---- the approach animation ----

  /** The x of the bond-coloured blob at approach `t`. */
  function LeftBlob(startDistance: real, endDistance: real, t: real): real {
    Lerp(-startDistance / 2.0, -endDistance / 2.0, t)
  }

  /** The x of the overlap-coloured blob at approach `t`. */
  function RightBlob(startDistance: real, endDistance: real, t: real): real {
    Lerp(startDistance / 2.0, endDistance / 2.0, t)
  }

  /** The x scale of the density strip at approach `t`. */
  function StripLength(startDistance: real, endDistance: real, t: real): real {
    Lerp(startDistance, endDistance, t)
  }

  /**
   * The blobs are mirror images, start at -+startDistance/2, end at
   * -+endDistance/2, and the strip always spans exactly the gap between them.
   */
  lemma BlobsSymmetric(startDistance: real, endDistance: real, t: real)
    ensures LeftBlob(startDistance, endDistance, t) == -RightBlob(startDistance, endDistance, t)
    ensures LeftBlob(startDistance, endDistance, 0.0) == -startDistance / 2.0
    ensures RightBlob(startDistance, endDistance, 0.0) == startDistance / 2.0
    ensures LeftBlob(startDistance, endDistance, 1.0) == -endDistance / 2.0
    ensures RightBlob(startDistance, endDistance, 1.0) == endDistance / 2.0
    ensures RightBlob(startDistance, endDistance, t) - LeftBlob(startDistance, endDistance, t) ==
      StripLength(startDistance, endDistance, t)
  {
    var d := (endDistance - startDistance) * t;
    assert (endDistance / 2.0 - startDistance / 2.0) * t == d / 2.0;
    assert (-endDistance / 2.0 - -startDistance / 2.0) * t == -d / 2.0;
  }

  /** During the approach the blobs never cross: the gap stays between the end and start distances. */
  lemma BlobsNeverCross(strength: real, t: real)
    requires 0.0 <= t <= 1.0
    ensures var s, e := StartDistance(strength), EndDistance(strength);
      e <= RightBlob(s, e, t) - LeftBlob(s, e, t) <= s
  {
    var s, e := StartDistance(strength), EndDistance(strength);
    ApproachShrinks(strength);
    BlobsSymmetric(s, e, t);
    LerpBetween(s, e, t);
  }

  /** The scale of the overlap shell for a pulse value. */
  function PulseScale(pulse: real): (s: real)
    ensures 0.65 <= pulse <= 1.0 ==> 0.9475 <= s <= 1.07
  {
    0.72 + pulse * 0.35
  }

  /** The height of the overlap shell; `sine` is the sine of pi times the approach. */
  function OverlapHeight(sine: real): (h: real)
    ensures -1.0 <= sine <= 1.0 ==> 0.03 <= h <= 0.13
  {
    0.08 + 0.05 * sine
  }

  /** The scale of the bond arc at approach `t`. */
  function ArcScale(t: real): (s: real)
    ensures 0.0 <= t <= 1.0 ==> 0.9 <= s <= 1.15
  {
    0.9 + t * 0.25
  }

  const QuantumColours: (string, string) := ("#9bd5ff", "#66e2e8")
  const BohrColours: (string, string) := ("#b6a8ff", "#f2c94c")

  /** The bond colour and the overlap colour of a visualisation mode; the two always differ. */
  function BondColours(mode: VisualizationMode): (colours: (string, string))
    ensures mode == Quantum <==> colours == QuantumColours
    ensures mode == Bohr <==> colours == BohrColours
    ensures colours.0 != colours.1
  {
    assert QuantumColours.0[1] != BohrColours.0[1];
    assert QuantumColours.0[1] != QuantumColours.1[1];
    assert BohrColours.0[1] != BohrColours.1[1];
    match mode
    case Quantum => QuantumColours
    case Bohr => BohrColours
  }

  // ---- the renderer ----

  /** What is drawn for one bond: its direction angle and the numbers its animation is built from. */
  datatype BondView = BondView(bond: Bond, angle: real, startDistance: real, endDistance: real, bias: real)

  function ViewOf(bond: Bond, angle: real): BondView {
    BondView(bond, angle, StartDistance(bond.strength), EndDistance(bond.strength), BondBias(bond))
  }

  /**
   * Nothing is drawn for a molecule without bonds; otherwise one view per
   * bond, in order, with the bonds' directions spread evenly around a turn.
   */
  function RenderMolecule(m: Molecule): (r: Option<seq<BondView>>)
    ensures r.None? <==> m.bonds == []
    ensures r.Some? ==> |r.value| == |m.bonds|
    ensures r.Some? ==> forall i :: 0 <= i < |m.bonds| ==>
      r.value[i].bond == m.bonds[i] && r.value[i].endDistance < r.value[i].startDistance
    ensures r.Some? ==> r.value[0].angle == 0.0
    ensures r.Some? ==> forall i, j :: 0 <= i < j < |m.bonds| ==> r.value[i].angle < r.value[j].angle
    ensures r.Some? ==> forall i :: 0 <= i < |m.bonds| ==> 0.0 <= r.value[i].angle < 2.0 * Pi
  {
    if m.bonds == [] then None
    else
      var angles := EvenlySpaced(|m.bonds|);
      var views := seq(|m.bonds|, i requires 0 <= i < |m.bonds| => ViewOf(m.bonds[i], angles[i]));
      assert forall i :: 0 <= i < |m.bonds| ==> views[i].endDistance < views[i].startDistance by {
        forall i | 0 <= i < |m.bonds| ensures views[i].endDistance < views[i].startDistance {
          ApproachShrinks(m.bonds[i].strength);
        }
      }
      Some(views)
  }
}

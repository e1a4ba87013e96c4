/**
 * The orbital decomposer: each shell's electrons go two at a time into one s
 * orbital, then (from level 2) up to three p orbitals and (from level 3) up
 * to five d orbitals, in a fixed orientation order. There is no f tier, so a
 * shell keeps at most 2, 8 or 18 of its electrons.
 */
module Orbitals {
  import opened Wrappers
  import opened JsMath
  import opened AtomModel
  import opened OrbitalModel
  import AtomService

  const POrientations: seq<Orientation> := [Px, Py, Pz]
  const DOrientations: seq<Orientation> := [Dxy, Dyz, Dxz, Dx2y2, Dz2]

  const ValenceColor: string := "#c8b5ff"
  const CoreColor: string := "#7ad0e3"

  function BaseColor(isValence: bool): string {
    if isValence then ValenceColor else CoreColor
  }

  /** The phase given to an orbital from one `Math.random()` draw. */
  function PhaseOffset(draw: real): (r: real)
    ensures 0.0 <= draw < 1.0 ==> 0.0 <= r < 2.0 * Pi
  {
    draw * Pi * 2.0
  }

  /** s orbitals sit inside the shell, p orbitals on it, d orbitals outside it. */
  function TierRadius(kind: OrbitalType, shellRadius: real): real {
    match kind
    case S => shellRadius * 0.7
    case P => shellRadius
    case D => shellRadius * 1.15
  }

  // ---------------------------------------------------------------------------
  // The decomposition as functions: the s orbital, then a tier of p or d
  // orbitals filled from orientation `index` on. Orbital number k of a shell
  // takes its phase from `draw(k)`, the k-th random draw made for that shell.

  function SPart(shell: Shell, draw: nat -> real): seq<Orbital> {
    var n := |shell.electrons|;
    if n > 0 then
      [Orbital(S, shell.level, Min(2, n), None, TierRadius(S, shell.radius), BaseColor(shell.isValence), PhaseOffset(draw(0)))]
    else
      []
  }

  function Tier(shell: Shell, kind: OrbitalType, orients: seq<Orientation>, remaining: int, index: nat, draw: nat -> real, first: nat): seq<Orbital>
    requires index <= |orients|
    decreases |orients| - index
  {
    if remaining > 0 && index < |orients| then
      var electrons := Min(2, remaining);
      [Orbital(kind, shell.level, electrons, Some(orients[index]), TierRadius(kind, shell.radius), BaseColor(shell.isValence), PhaseOffset(draw(first + index)))]
        + Tier(shell, kind, orients, remaining - electrons, index + 1, draw, first)
    else
      []
  }

  /** The electrons left over once a tier of `count` orientations has been filled from `index` on. */
  function TierRemaining(remaining: int, index: nat, count: nat): int
    requires index <= count
    decreases count - index
  {
    if remaining > 0 && index < count then TierRemaining(remaining - Min(2, remaining), index + 1, count) else remaining
  }

  /** A tier filled from its first orientation, or no tier at all when `fill` is false. */
  function TierIf(fill: bool, shell: Shell, kind: OrbitalType, orients: seq<Orientation>, remaining: int, draw: nat -> real, first: nat): seq<Orbital> {
    if fill then Tier(shell, kind, orients, remaining, 0, draw, first) else []
  }

  function AfterS(shell: Shell): int {
    var n := |shell.electrons|;
    if n > 0 then n - Min(2, n) else n
  }

  function PPart(shell: Shell, draw: nat -> real): seq<Orbital> {
    TierIf(shell.level >= 2 && AfterS(shell) > 0, shell, P, POrientations, AfterS(shell), draw, |SPart(shell, draw)|)
  }

  function AfterP(shell: Shell): int {
    if shell.level >= 2 && AfterS(shell) > 0 then TierRemaining(AfterS(shell), 0, |POrientations|) else AfterS(shell)
  }

  function DPart(shell: Shell, draw: nat -> real): seq<Orbital> {
    TierIf(shell.level >= 3 && AfterP(shell) > 0, shell, D, DOrientations, AfterP(shell), draw, |SPart(shell, draw)| + |PPart(shell, draw)|)
  }

  /** The orbital set of one shell. */
  function Decompose(shell: Shell, draw: nat -> real): OrbitalSet {
    OrbitalSet(shell.level, SPart(shell, draw) + PPart(shell, draw) + DPart(shell, draw), shell.isValence)
  }

  // ---------------------------------------------------------------------------
  // The decomposition as the source runs it

  /**
   * One of the two `while` loops of `useOrbitals` (the p loop and the d loop
   * differ only in type, orientation list and radius): push orbitals of up to
   * two electrons, one per orientation, until the electrons or the
   * orientations run out.
   */
  method FillTier(shell: Shell, kind: OrbitalType, orients: seq<Orientation>, orbitals: seq<Orbital>, remaining: int, draw: nat -> real)
    returns (filled: seq<Orbital>, left: int)
    ensures filled == orbitals + Tier(shell, kind, orients, remaining, 0, draw, |orbitals|)
    ensures left == TierRemaining(remaining, 0, |orients|)
  {
    filled, left := orbitals, remaining;
    var orientationIndex := 0;
    while left > 0 && orientationIndex < |orients|
      invariant orientationIndex <= |orients|
      invariant |filled| == |orbitals| + orientationIndex
      invariant filled + Tier(shell, kind, orients, left, orientationIndex, draw, |orbitals|)
             == orbitals + Tier(shell, kind, orients, remaining, 0, draw, |orbitals|)
      invariant TierRemaining(left, orientationIndex, |orients|) == TierRemaining(remaining, 0, |orients|)
      decreases |orients| - orientationIndex
    {
      var electrons := Min(2, left);
      filled := filled + [Orbital(kind, shell.level, electrons, Some(orients[orientationIndex]), TierRadius(kind, shell.radius), BaseColor(shell.isValence), PhaseOffset(draw(|filled|)))];
      left := left - electrons;
      orientationIndex := orientationIndex + 1;
    }
  }

  /** The body of the per-shell callback of `useOrbitals`. */
  method DecomposeShell(shell: Shell, draw: nat -> real) returns (orbitalSet: OrbitalSet)
    ensures orbitalSet == Decompose(shell, draw)
  {
    var orbitals, remainingElectrons := FillS(shell, draw);
    orbitals, remainingElectrons := FillP(shell, draw, orbitals, remainingElectrons);
    orbitals := FillD(shell, draw, orbitals, remainingElectrons);
    orbitalSet := OrbitalSet(shell.level, orbitals, shell.isValence);
  }

  /** The first step of the callback: one s orbital of up to two electrons, if the shell has any. */
  method FillS(shell: Shell, draw: nat -> real) returns (orbitals: seq<Orbital>, remainingElectrons: int)
    ensures orbitals == SPart(shell, draw) && remainingElectrons == AfterS(shell)
  {
    remainingElectrons := |shell.electrons|;
    orbitals := [];
    if remainingElectrons > 0 {
      var electrons := Min(2, remainingElectrons);
      orbitals := orbitals + [Orbital(S, shell.level, electrons, None, shell.radius * 0.7, BaseColor(shell.isValence), PhaseOffset(draw(|orbitals|)))];
      remainingElectrons := remainingElectrons - electrons;
    }
  }

  /** The second step: from level 2, the p loop over px, py, pz while electrons remain. */
  method FillP(shell: Shell, draw: nat -> real, orbitals: seq<Orbital>, remainingElectrons: int)
    returns (filled: seq<Orbital>, left: int)
    requires orbitals == SPart(shell, draw) && remainingElectrons == AfterS(shell)
    ensures filled == SPart(shell, draw) + PPart(shell, draw) && left == AfterP(shell)
  {
    PStep(shell, draw, orbitals, PPart(shell, draw));
    filled, left := orbitals, remainingElectrons;
    if shell.level >= 2 && remainingElectrons > 0 {
      filled, left := FillTier(shell, P, POrientations, orbitals, remainingElectrons, draw);
    } else {
      assert filled == SPart(shell, draw) + [];
    }
  }

  /** The third step: from level 3, the d loop over the five d orientations while electrons remain. */
  method FillD(shell: Shell, draw: nat -> real, orbitals: seq<Orbital>, remainingElectrons: int)
    returns (filled: seq<Orbital>)
    requires orbitals == SPart(shell, draw) + PPart(shell, draw) && remainingElectrons == AfterP(shell)
    ensures filled == SPart(shell, draw) + PPart(shell, draw) + DPart(shell, draw)
  {
    DStep(shell, draw, SPart(shell, draw), PPart(shell, draw), DPart(shell, draw));
    filled := orbitals;
    if shell.level >= 3 && remainingElectrons > 0 {
      var left;
      filled, left := FillTier(shell, D, DOrientations, orbitals, remainingElectrons, draw);
    } else {
      assert filled == orbitals + [];
    }
  }

  /** How the p part follows the s part. */
  lemma PStep(shell: Shell, draw: nat -> real, sp: seq<Orbital>, pp: seq<Orbital>)
    requires sp == SPart(shell, draw) && pp == PPart(shell, draw)
    ensures pp == TierIf(shell.level >= 2 && AfterS(shell) > 0, shell, P, POrientations, AfterS(shell), draw, |sp|)
    ensures AfterP(shell) == if shell.level >= 2 && AfterS(shell) > 0 then TierRemaining(AfterS(shell), 0, |POrientations|) else AfterS(shell)
  {
  }

  /** How the d part follows the s and p parts. */
  lemma DStep(shell: Shell, draw: nat -> real, sp: seq<Orbital>, pp: seq<Orbital>, dp: seq<Orbital>)
    requires sp == SPart(shell, draw) && pp == PPart(shell, draw) && dp == DPart(shell, draw)
    ensures dp == TierIf(shell.level >= 3 && AfterP(shell) > 0, shell, D, DOrientations, AfterP(shell), draw, |sp| + |pp|)
  {
  }

  /** `useOrbitals`: one orbital set per shell, in shell order; `draws(i)` are the draws of shell i. */
  method UseOrbitals(atom: Atom, draws: nat -> nat -> real) returns (sets: seq<OrbitalSet>)
    ensures |sets| == |atom.shells|
    ensures forall i :: 0 <= i < |sets| ==>
      sets[i] == Decompose(atom.shells[i], draws(i))
      && sets[i].shell == atom.shells[i].level
      && sets[i].isValence == atom.shells[i].isValence
  {
    sets := [];
    for i := 0 to |atom.shells|
      invariant |sets| == i
      invariant forall j :: 0 <= j < i ==> sets[j] == Decompose(atom.shells[j], draws(j))
    {
      var orbitalSet := DecomposeShell(atom.shells[i], draws(i));
      sets := sets + [orbitalSet];
    }
  }

  // ---------------------------------------------------------------------------
  // Properties of the decomposition

  function SumElectrons(orbitals: seq<Orbital>): int {
    if orbitals == [] then 0 else orbitals[0].electrons + SumElectrons(orbitals[1..])
  }

  /** The orbitals of one type, in order. */
  function OfKind(orbitals: seq<Orbital>, kind: OrbitalType): seq<Orbital> {
    if orbitals == [] then []
    else (if orbitals[0].kind == kind then [orbitals[0]] else []) + OfKind(orbitals[1..], kind)
  }

  /** The orientations of `orbitals` are the first |orbitals| entries of `orients`. */
  ghost predicate PrefixOf(orbitals: seq<Orbital>, orients: seq<Orientation>) {
    |orbitals| <= |orients| && forall i :: 0 <= i < |orbitals| ==> orbitals[i].orientation == Some(orients[i])
  }

  /** How many electrons s, p and d together keep of a shell at `level`. */
  function OrbitalCapacity(level: int): int {
    if level >= 3 then 18 else if level == 2 then 8 else 2
  }

  function Rank(kind: OrbitalType): int {
    match kind
    case S => 0
    case P => 1
    case D => 2
  }

  /** An orbital of a tier as `Tier` makes it. */
  ghost predicate TierOrbital(o: Orbital, shell: Shell, kind: OrbitalType, orient: Orientation, draw: real) {
    && o.kind == kind
    && o.principal == shell.level
    && o.orientation == Some(orient)
    && o.radius == TierRadius(kind, shell.radius)
    && o.color == BaseColor(shell.isValence)
    && o.phaseOffset == PhaseOffset(draw)
    && 1 <= o.electrons <= 2
  }

  /** Orbital j of `t` is the tier orbital of orientation j, with draw `first + j`. */
  ghost predicate TierLaidOut(t: seq<Orbital>, shell: Shell, kind: OrbitalType, orients: seq<Orientation>, draw: nat -> real, first: nat) {
    |t| <= |orients| && forall j :: 0 <= j < |t| ==> TierOrbital(t[j], shell, kind, orients[j], draw(first + j))
  }

  lemma {:induction false} SumElectronsAppend(a: seq<Orbital>, b: seq<Orbital>)
    ensures SumElectrons(a + b) == SumElectrons(a) + SumElectrons(b)
  {
    if a == [] {
      assert a + b == b;
    } else {
      assert (a + b)[0] == a[0];
      assert (a + b)[1..] == a[1..] + b;
      SumElectronsAppend(a[1..], b);
    }
  }

  lemma {:induction false} OfKindAppend(a: seq<Orbital>, b: seq<Orbital>, kind: OrbitalType)
    ensures OfKind(a + b, kind) == OfKind(a, kind) + OfKind(b, kind)
  {
    if a == [] {
      assert a + b == b;
    } else {
      var head := if a[0].kind == kind then [a[0]] else [];
      assert (a + b)[0] == a[0];
      assert (a + b)[1..] == a[1..] + b;
      OfKindAppend(a[1..], b, kind);
      calc {
        OfKind(a + b, kind);
        head + OfKind(a[1..] + b, kind);
        head + (OfKind(a[1..], kind) + OfKind(b, kind));
        (head + OfKind(a[1..], kind)) + OfKind(b, kind);
        OfKind(a, kind) + OfKind(b, kind);
      }
    }
  }

  /** Filtering a list whose orbitals all have type `uniform`. */
  lemma {:induction false} OfKindUniform(orbitals: seq<Orbital>, uniform: OrbitalType, kind: OrbitalType)
    requires forall i :: 0 <= i < |orbitals| ==> orbitals[i].kind == uniform
    ensures OfKind(orbitals, kind) == if kind == uniform then orbitals else []
  {
    if orbitals != [] {
      OfKindUniform(orbitals[1..], uniform, kind);
    }
  }

  /** One turn of a tier loop. */
  lemma TierUnfold(shell: Shell, kind: OrbitalType, orients: seq<Orientation>, remaining: int, index: nat, draw: nat -> real, first: nat)
    requires index < |orients| && remaining > 0
    ensures var t := Tier(shell, kind, orients, remaining, index, draw, first);
      && |t| >= 1
      && t[0] == Orbital(kind, shell.level, Min(2, remaining), Some(orients[index]), TierRadius(kind, shell.radius), BaseColor(shell.isValence), PhaseOffset(draw(first + index)))
      && t[1..] == Tier(shell, kind, orients, remaining - Min(2, remaining), index + 1, draw, first)
      && TierRemaining(remaining, index, |orients|) == TierRemaining(remaining - Min(2, remaining), index + 1, |orients|)
  {
  }

  lemma {:induction false} TierCount(shell: Shell, kind: OrbitalType, orients: seq<Orientation>, remaining: int, index: nat, draw: nat -> real, first: nat)
    requires index <= |orients|
    ensures var t := Tier(shell, kind, orients, remaining, index, draw, first);
      && |t| <= |orients| - index
      && (|t| > 0 <==> remaining > 0 && index < |orients|)
      && SumElectrons(t) + TierRemaining(remaining, index, |orients|) == remaining
    decreases |orients| - index
  {
    if remaining > 0 && index < |orients| {
      TierUnfold(shell, kind, orients, remaining, index, draw, first);
      TierCount(shell, kind, orients, remaining - Min(2, remaining), index + 1, draw, first);
    }
  }

  /** Orbital j of a tier filled from `index` takes orientation `index + j` and draw `first + index + j`. */
  lemma {:induction false} TierOrbitalAt(shell: Shell, kind: OrbitalType, orients: seq<Orientation>, remaining: int, index: nat, draw: nat -> real, first: nat, j: nat)
    requires index <= |orients|
    requires j < |Tier(shell, kind, orients, remaining, index, draw, first)|
    ensures index + j < |orients|
    ensures TierOrbital(Tier(shell, kind, orients, remaining, index, draw, first)[j], shell, kind, orients[index + j], draw(first + index + j))
    decreases j
  {
    var t := Tier(shell, kind, orients, remaining, index, draw, first);
    TierUnfold(shell, kind, orients, remaining, index, draw, first);
    if j > 0 {
      TierOrbitalAt(shell, kind, orients, remaining - Min(2, remaining), index + 1, draw, first, j - 1);
      assert t[j] == t[1..][j - 1];
      assert index + 1 + (j - 1) == index + j;
    }
  }

  /** Within a tier every orbital but the last is full, and a half-full last one ends the electrons. */
  lemma {:induction false} TierFull(shell: Shell, kind: OrbitalType, orients: seq<Orientation>, remaining: int, index: nat, draw: nat -> real, first: nat)
    requires index <= |orients|
    ensures var t := Tier(shell, kind, orients, remaining, index, draw, first);
      && (forall j :: 0 <= j < |t| - 1 ==> t[j].electrons == 2)
      && (|t| > 0 && t[|t| - 1].electrons == 1 ==> TierRemaining(remaining, index, |orients|) == 0)
    decreases |orients| - index
  {
    if remaining > 0 && index < |orients| {
      var t := Tier(shell, kind, orients, remaining, index, draw, first);
      var next := remaining - Min(2, remaining);
      TierUnfold(shell, kind, orients, remaining, index, draw, first);
      TierFull(shell, kind, orients, next, index + 1, draw, first);
      TierCount(shell, kind, orients, next, index + 1, draw, first);
      if |t| > 1 {
        assert next > 0;
      }
      forall j | 1 <= j < |t| - 1 ensures t[j].electrons == 2 {
        assert t[j] == t[1..][j - 1];
      }
      if |t| == 1 && t[0].electrons == 1 {
        assert next == 0;
      }
      if |t| > 1 {
        assert t[|t| - 1] == t[1..][|t| - 2];
      }
    }
  }

  lemma {:induction false} TierRemainingValue(remaining: int, index: nat, count: nat)
    requires index <= count && remaining >= 0
    ensures TierRemaining(remaining, index, count) == if remaining <= 2 * (count - index) then 0 else remaining - 2 * (count - index)
    decreases count - index
  {
    if remaining > 0 && index < count {
      TierRemainingValue(remaining - Min(2, remaining), index + 1, count);
    }
  }

  /** The s part and how the tiers follow it. */
  lemma DecomposeSizes(shell: Shell, draw: nat -> real, sp: seq<Orbital>, pp: seq<Orbital>, dp: seq<Orbital>)
    requires sp == SPart(shell, draw) && pp == PPart(shell, draw) && dp == DPart(shell, draw)
    ensures |sp| <= 1 && |pp| <= 3 && |dp| <= 5
    ensures pp != [] ==> shell.level >= 2 && sp != [] && sp[0].electrons == 2
    ensures dp != [] ==> shell.level >= 3 && pp != [] && pp[|pp| - 1].electrons == 2
    ensures forall i :: 0 <= i < |pp| - 1 ==> pp[i].electrons == 2
    ensures forall i :: 0 <= i < |dp| - 1 ==> dp[i].electrons == 2
  {
    PTierSizes(shell, draw, sp, pp);
    DTierSizes(shell, draw, sp, pp, dp);
  }

  /** A whole tier: its size, its full orbitals and the electrons it leaves. */
  lemma TierShape(shell: Shell, kind: OrbitalType, orients: seq<Orientation>, remaining: int, draw: nat -> real, first: nat, t: seq<Orbital>)
    requires t == Tier(shell, kind, orients, remaining, 0, draw, first)
    ensures |t| <= |orients|
    ensures t != [] <==> remaining > 0 && |orients| > 0
    ensures forall i :: 0 <= i < |t| - 1 ==> t[i].electrons == 2
    ensures t != [] && t[|t| - 1].electrons == 1 ==> TierRemaining(remaining, 0, |orients|) == 0
    ensures SumElectrons(t) + TierRemaining(remaining, 0, |orients|) == remaining
  {
    TierCount(shell, kind, orients, remaining, 0, draw, first);
    TierFull(shell, kind, orients, remaining, 0, draw, first);
  }

  /** The p tier follows a full s orbital, and only its last orbital can be half full. */
  lemma PTierSizes(shell: Shell, draw: nat -> real, sp: seq<Orbital>, pp: seq<Orbital>)
    requires sp == SPart(shell, draw) && pp == PPart(shell, draw)
    ensures |sp| <= 1 && |pp| <= 3
    ensures pp != [] ==> shell.level >= 2 && sp != [] && sp[0].electrons == 2
    ensures forall i :: 0 <= i < |pp| - 1 ==> pp[i].electrons == 2
    ensures shell.level >= 2 && AfterP(shell) > 0 ==> pp != [] && pp[|pp| - 1].electrons == 2
  {
    PStep(shell, draw, sp, pp);
    var a := AfterS(shell);
    if shell.level >= 2 && a > 0 {
      TierShape(shell, P, POrientations, a, draw, |sp|, pp);
    }
  }

  /** The d tier needs electrons left after the p tier, and only its last orbital can be half full. */
  lemma DTierSizes(shell: Shell, draw: nat -> real, sp: seq<Orbital>, pp: seq<Orbital>, dp: seq<Orbital>)
    requires sp == SPart(shell, draw) && pp == PPart(shell, draw) && dp == DPart(shell, draw)
    ensures |dp| <= 5
    ensures dp != [] ==> shell.level >= 3 && AfterP(shell) > 0
    ensures forall i :: 0 <= i < |dp| - 1 ==> dp[i].electrons == 2
  {
    DStep(shell, draw, sp, pp, dp);
    var b := AfterP(shell);
    if shell.level >= 3 && b > 0 {
      TierShape(shell, D, DOrientations, b, draw, |sp| + |pp|, dp);
    }
  }

  /** What each part holds: orbital i of a set takes its phase from draw i. */
  lemma DecomposeParts(shell: Shell, draw: nat -> real, sp: seq<Orbital>, pp: seq<Orbital>, dp: seq<Orbital>)
    requires sp == SPart(shell, draw) && pp == PPart(shell, draw) && dp == DPart(shell, draw)
    ensures forall i :: 0 <= i < |sp| ==>
      sp[i] == Orbital(S, shell.level, sp[i].electrons, None, TierRadius(S, shell.radius), BaseColor(shell.isValence), PhaseOffset(draw(i)))
      && 1 <= sp[i].electrons <= 2
    ensures |pp| <= |POrientations| && |dp| <= |DOrientations|
    ensures forall i :: 0 <= i < |pp| ==> TierOrbital(pp[i], shell, P, POrientations[i], draw(|sp| + i))
    ensures forall i :: 0 <= i < |dp| ==> TierOrbital(dp[i], shell, D, DOrientations[i], draw(|sp| + |pp| + i))
  {
    PPartShape(shell, draw, sp, pp);
    DPartShape(shell, draw, sp, pp, dp);
  }

  /**
   * A tier filled from the start, or no tier at all when `fill` is false:
   * orbital j takes orientation j and draw `first + j`.
   */
  lemma TierOrbitalsFromStart(shell: Shell, kind: OrbitalType, orients: seq<Orientation>, fill: bool, remaining: int, draw: nat -> real, first: nat, t: seq<Orbital>)
    requires t == TierIf(fill, shell, kind, orients, remaining, draw, first)
    ensures TierLaidOut(t, shell, kind, orients, draw, first)
  {
    if fill {
      TierCount(shell, kind, orients, remaining, 0, draw, first);
      forall j | 0 <= j < |t| ensures TierOrbital(t[j], shell, kind, orients[j], draw(first + j)) {
        TierOrbitalAt(shell, kind, orients, remaining, 0, draw, first, j);
        assert orients[0 + j] == orients[j] && draw(first + 0 + j) == draw(first + j);
      }
    }
  }

  /** The p part is a whole p tier, numbered on from the s part. */
  lemma PPartShape(shell: Shell, draw: nat -> real, sp: seq<Orbital>, pp: seq<Orbital>)
    requires sp == SPart(shell, draw) && pp == PPart(shell, draw)
    ensures TierLaidOut(pp, shell, P, POrientations, draw, |sp|)
  {
    var a := AfterS(shell);
    PStep(shell, draw, sp, pp);
    TierOrbitalsFromStart(shell, P, POrientations, shell.level >= 2 && a > 0, a, draw, |sp|, pp);
  }

  /** The d part is a whole d tier, numbered on from the s and p parts. */
  lemma DPartShape(shell: Shell, draw: nat -> real, sp: seq<Orbital>, pp: seq<Orbital>, dp: seq<Orbital>)
    requires sp == SPart(shell, draw) && pp == PPart(shell, draw) && dp == DPart(shell, draw)
    ensures TierLaidOut(dp, shell, D, DOrientations, draw, |sp| + |pp|)
  {
    var b := AfterP(shell);
    DStep(shell, draw, sp, pp, dp);
    TierOrbitalsFromStart(shell, D, DOrientations, shell.level >= 3 && b > 0, b, draw, |sp| + |pp|, dp);
  }

  /** The orbitals of a set hold min(n, 2), min(n, 8) or min(n, 18) of a shell's n electrons. */
  lemma DecomposeElectrons(shell: Shell, draw: nat -> real)
    ensures SumElectrons(Decompose(shell, draw).orbitals) == Min(|shell.electrons|, OrbitalCapacity(shell.level))
  {
    var sp, pp, dp := SPart(shell, draw), PPart(shell, draw), DPart(shell, draw);
    assert Decompose(shell, draw).orbitals == sp + pp + dp;
    SumElectronsAppend(sp + pp, dp);
    SumElectronsAppend(sp, pp);
    assert SumElectrons(sp) + AfterS(shell) == |shell.electrons|;
    PTierElectrons(shell, draw, sp, pp);
    DTierElectrons(shell, draw, sp, pp, dp);
  }

  /** The p tier takes up to six of the electrons the s orbital leaves. */
  lemma PTierElectrons(shell: Shell, draw: nat -> real, sp: seq<Orbital>, pp: seq<Orbital>)
    requires sp == SPart(shell, draw) && pp == PPart(shell, draw)
    ensures SumElectrons(pp) + AfterP(shell) == AfterS(shell)
    ensures SumElectrons(pp) == if shell.level >= 2 && AfterS(shell) > 0 then Min(AfterS(shell), 6) else 0
  {
    PStep(shell, draw, sp, pp);
    var a := AfterS(shell);
    if shell.level >= 2 && a > 0 {
      TierShape(shell, P, POrientations, a, draw, |sp|, pp);
      TierRemainingValue(a, 0, |POrientations|);
    }
  }

  /** The d tier takes up to ten of the electrons the p tier leaves. */
  lemma DTierElectrons(shell: Shell, draw: nat -> real, sp: seq<Orbital>, pp: seq<Orbital>, dp: seq<Orbital>)
    requires sp == SPart(shell, draw) && pp == PPart(shell, draw) && dp == DPart(shell, draw)
    ensures SumElectrons(dp) == if shell.level >= 3 && AfterP(shell) > 0 then Min(AfterP(shell), 10) else 0
  {
    DStep(shell, draw, sp, pp, dp);
    var b := AfterP(shell);
    if shell.level >= 3 && b > 0 {
      TierShape(shell, D, DOrientations, b, draw, |sp| + |pp|, dp);
      TierRemainingValue(b, 0, |DOrientations|);
    }
  }

  /** Every orbital holds one or two electrons, and only the last one can hold one. */
  lemma DecomposeOccupancy(shell: Shell, draw: nat -> real)
    ensures var o := Decompose(shell, draw).orbitals;
      && (forall i :: 0 <= i < |o| ==> 1 <= o[i].electrons <= 2)
      && (forall i :: 0 <= i < |o| - 1 ==> o[i].electrons == 2)
  {
    var sp, pp, dp := SPart(shell, draw), PPart(shell, draw), DPart(shell, draw);
    DecomposeSizes(shell, draw, sp, pp, dp);
    DecomposeParts(shell, draw, sp, pp, dp);
    var o := Decompose(shell, draw).orbitals;
    assert o == sp + pp + dp;
    forall i | 0 <= i < |o| ensures 1 <= o[i].electrons <= 2 && (i < |o| - 1 ==> o[i].electrons == 2) {
      if i < |sp| {
        assert o[i] == sp[i];
      } else if i < |sp| + |pp| {
        assert o[i] == pp[i - |sp|];
      } else {
        assert o[i] == dp[i - |sp| - |pp|];
      }
    }
  }

  /**
   * Types run s, then p, then d; p appears only from level 2 and d only from
   * level 3; every orbital has principal number `level` and the radius of its
   * type, and the s orbital has no orientation.
   */
  lemma DecomposeKinds(shell: Shell, draw: nat -> real)
    ensures var o := Decompose(shell, draw).orbitals;
      && (forall i, j :: 0 <= i < j < |o| ==> Rank(o[i].kind) <= Rank(o[j].kind))
      && (forall i :: 0 <= i < |o| ==> o[i].kind == P ==> shell.level >= 2)
      && (forall i :: 0 <= i < |o| ==> o[i].kind == D ==> shell.level >= 3)
      && (forall i :: 0 <= i < |o| ==> o[i].principal == shell.level && o[i].radius == TierRadius(o[i].kind, shell.radius))
      && (forall i :: 0 <= i < |o| ==> (o[i].orientation == None <==> o[i].kind == S))
  {
    var sp, pp, dp := SPart(shell, draw), PPart(shell, draw), DPart(shell, draw);
    DecomposeSizes(shell, draw, sp, pp, dp);
    DecomposeParts(shell, draw, sp, pp, dp);
    var o := Decompose(shell, draw).orbitals;
    assert o == sp + pp + dp;
    forall i | 0 <= i < |o|
      ensures Rank(o[i].kind) == (if i < |sp| then 0 else if i < |sp| + |pp| then 1 else 2)
      ensures o[i].principal == shell.level && o[i].radius == TierRadius(o[i].kind, shell.radius)
      ensures o[i].orientation == None <==> o[i].kind == S
    {
      if i < |sp| {
        assert o[i] == sp[i];
      } else if i < |sp| + |pp| {
        assert o[i] == pp[i - |sp|];
      } else {
        assert o[i] == dp[i - |sp| - |pp|];
      }
    }
  }

  /**
   * At most one s orbital; the p orbitals take a prefix of px, py, pz and the
   * d orbitals a prefix of dxy, dyz, dxz, dx2y2, dz2.
   */
  lemma DecomposeOrientations(shell: Shell, draw: nat -> real)
    ensures var o := Decompose(shell, draw).orbitals;
      && |OfKind(o, S)| <= 1
      && PrefixOf(OfKind(o, P), POrientations)
      && PrefixOf(OfKind(o, D), DOrientations)
  {
    var sp, pp, dp := SPart(shell, draw), PPart(shell, draw), DPart(shell, draw);
    PartKinds(shell, draw, sp, pp, dp);
    assert Decompose(shell, draw).orbitals == sp + pp + dp;
    OfKindOfParts(sp, pp, dp, S);
    OfKindOfParts(sp, pp, dp, P);
    OfKindOfParts(sp, pp, dp, D);
  }

  /** Each part holds orbitals of its own type only; the tiers take prefixes of their orientation lists. */
  lemma PartKinds(shell: Shell, draw: nat -> real, sp: seq<Orbital>, pp: seq<Orbital>, dp: seq<Orbital>)
    requires sp == SPart(shell, draw) && pp == PPart(shell, draw) && dp == DPart(shell, draw)
    ensures |sp| <= 1 && forall i :: 0 <= i < |sp| ==> sp[i].kind == S
    ensures PrefixOf(pp, POrientations) && forall i :: 0 <= i < |pp| ==> pp[i].kind == P
    ensures PrefixOf(dp, DOrientations) && forall i :: 0 <= i < |dp| ==> dp[i].kind == D
  {
    var a, b := AfterS(shell), AfterP(shell);
    PStep(shell, draw, sp, pp);
    TierPrefix(shell, P, POrientations, shell.level >= 2 && a > 0, a, draw, |sp|, pp);
    DStep(shell, draw, sp, pp, dp);
    TierPrefix(shell, D, DOrientations, shell.level >= 3 && b > 0, b, draw, |sp| + |pp|, dp);
  }

  /** A tier (or no tier) carries a prefix of its orientation list and only the tier's type. */
  lemma TierPrefix(shell: Shell, kind: OrbitalType, orients: seq<Orientation>, fill: bool, remaining: int, draw: nat -> real, first: nat, t: seq<Orbital>)
    requires t == TierIf(fill, shell, kind, orients, remaining, draw, first)
    ensures PrefixOf(t, orients)
    ensures forall j :: 0 <= j < |t| ==> t[j].kind == kind
  {
    TierOrbitalsFromStart(shell, kind, orients, fill, remaining, draw, first, t);
  }

  /** Filtering an s part, a p part and a d part picks out one of them whole. */
  lemma OfKindOfParts(sp: seq<Orbital>, pp: seq<Orbital>, dp: seq<Orbital>, kind: OrbitalType)
    requires forall i :: 0 <= i < |sp| ==> sp[i].kind == S
    requires forall i :: 0 <= i < |pp| ==> pp[i].kind == P
    requires forall i :: 0 <= i < |dp| ==> dp[i].kind == D
    ensures OfKind(sp + pp + dp, kind) == match kind case S => sp case P => pp case D => dp
  {
    OfKindAppend(sp + pp, dp, kind);
    OfKindAppend(sp, pp, kind);
    OfKindUniform(sp, S, kind);
    OfKindUniform(pp, P, kind);
    OfKindUniform(dp, D, kind);
  }

  /** Every phase offset lies in [0, 2 pi) when the draws lie in [0, 1). */
  lemma DecomposePhases(shell: Shell, draw: nat -> real)
    requires forall k: nat :: 0.0 <= draw(k) < 1.0
    ensures var o := Decompose(shell, draw).orbitals;
      forall i :: 0 <= i < |o| ==> 0.0 <= o[i].phaseOffset < 2.0 * Pi
  {
    var sp, pp, dp := SPart(shell, draw), PPart(shell, draw), DPart(shell, draw);
    DecomposeParts(shell, draw, sp, pp, dp);
    var o := Decompose(shell, draw).orbitals;
    assert o == sp + pp + dp;
    forall i | 0 <= i < |o| ensures 0.0 <= o[i].phaseOffset < 2.0 * Pi {
      if i < |sp| {
        assert o[i] == sp[i];
      } else if i < |sp| + |pp| {
        assert o[i] == pp[i - |sp|];
      } else {
        assert o[i] == dp[i - |sp| - |pp|];
      }
    }
  }

  /**
   * On the shells the builder makes, decomposition keeps every electron except
   * those of a fourth shell beyond eighteen (there is no f tier).
   */
  lemma BuiltShellsDecompose(atomicNumber: int, draws: nat -> nat -> real)
    ensures var shells := AtomService.BuildShells(atomicNumber);
      forall i :: 0 <= i < |shells| ==>
        SumElectrons(Decompose(shells[i], draws(i)).orbitals) == Min(|shells[i].electrons|, 18)
  {
    var shells := AtomService.BuildShells(atomicNumber);
    AtomService.BuildShellsShape(atomicNumber);
    forall i | 0 <= i < |shells|
      ensures SumElectrons(Decompose(shells[i], draws(i)).orbitals) == Min(|shells[i].electrons|, 18)
    {
      assert AtomService.WellFormedShell(shells[i], i + 1);
      DecomposeElectrons(shells[i], draws(i));
    }
  }
}

/**
 * The shell builder: an atomic number is spread greedily over at most four
 * shells of capacities 2, 8, 18 and 32. Electrons beyond the sixtieth are
 * dropped, and the valence flag goes on the shell after which no electron
 * remains, so an atom with more than 60 electrons has no valence shell.
 */
module AtomService {
  import opened Wrappers
  import opened JsMath
  import opened AtomModel

  const ShellCapacities: seq<int> := [2, 8, 18, 32]

  /** The capacity of the shell at `level`, counted from 1. */
  function Capacity(level: nat): (c: int)
    requires 1 <= level <= |ShellCapacities|
    ensures c >= 2
  {
    ShellCapacities[level - 1]
  }

  /** The radius of a shell depends on its level only. */
  function ShellRadius(level: int): real {
    1.5 + level as real * 0.75
  }

  /** The electrons of one shell, numbered by their position on the ring. */
  function ElectronParticles(count: nat): (ps: seq<Particle>)
    ensures |ps| == count
    ensures forall i :: 0 <= i < count ==> ps[i].kind == Electron && ps[i].charge == -1 && ps[i].positionIndex == Some(i)
  {
    seq(count, i => Particle(Electron, -1, Some(i)))
  }

  /** How many electrons one turn of the loop places at `level` with `remaining` left. */
  function Taken(remaining: int, level: nat): int
    requires 1 <= level <= |ShellCapacities|
  {
    Min(remaining, Capacity(level))
  }

  /** The shell one turn of the loop pushes; it is the valence shell when no electron is left after it. */
  function PushedShell(remaining: int, level: nat): Shell
    requires 1 <= level <= |ShellCapacities| && remaining > 0
  {
    var count := Taken(remaining, level);
    Shell(level, ElectronParticles(count), ShellRadius(level), remaining - count == 0)
  }

  /** The shells the filling loop pushes once it has reached `level` with `remaining` electrons left. */
  function FillFrom(remaining: int, level: nat): seq<Shell>
    requires 1 <= level <= |ShellCapacities| + 1
    decreases |ShellCapacities| + 1 - level
  {
    if remaining > 0 && level <= |ShellCapacities| then
      [PushedShell(remaining, level)] + FillFrom(remaining - Taken(remaining, level), level + 1)
    else
      []
  }

  /** The shells of an atom with the given atomic number. */
  function BuildShells(atomicNumber: int): seq<Shell> {
    FillFrom(atomicNumber, 1)
  }

  /** `createShells`: the greedy filling loop. */
  method CreateShells(atomicNumber: int) returns (shells: seq<Shell>)
    ensures shells == BuildShells(atomicNumber)
  {
    ghost var target := BuildShells(atomicNumber);
    shells := [];
    var remaining := atomicNumber;
    var level := 1;
    while remaining > 0 && level <= |ShellCapacities|
      invariant 1 <= level <= |ShellCapacities| + 1
      invariant shells + FillFrom(remaining, level) == target
      decreases |ShellCapacities| + 1 - level
    {
      var shell, electronsCount := NextShell(remaining, level);
      FillFromStep(shells, remaining, level, target);
      shells := shells + [shell];
      remaining := remaining - electronsCount;
      level := level + 1;
    }
    FillFromDone(shells, remaining, level);
  }

  /** The body of the filling loop: the shell for `level` and how many electrons it takes. */
  method NextShell(remaining: int, level: nat) returns (shell: Shell, electronsCount: int)
    requires 1 <= level <= |ShellCapacities| && remaining > 0
    ensures shell == PushedShell(remaining, level) && electronsCount == Taken(remaining, level)
    ensures 1 <= electronsCount <= Capacity(level)
  {
    var capacity := Capacity(level);
    electronsCount := Min(remaining, capacity);
    var electrons := ElectronParticles(electronsCount);
    shell := Shell(level, electrons, ShellRadius(level), remaining - electronsCount == 0);
  }

  /** One turn of the loop moves one shell from the pending part to the pushed part. */
  lemma FillFromStep(prefix: seq<Shell>, remaining: int, level: nat, target: seq<Shell>)
    requires 1 <= level <= |ShellCapacities| && remaining > 0
    requires prefix + FillFrom(remaining, level) == target
    ensures (prefix + [PushedShell(remaining, level)]) + FillFrom(remaining - Taken(remaining, level), level + 1) == target
  {
    assert FillFrom(remaining, level) == [PushedShell(remaining, level)] + FillFrom(remaining - Taken(remaining, level), level + 1);
  }

  /** Once the loop stops, nothing is pending. */
  lemma FillFromDone(prefix: seq<Shell>, remaining: int, level: nat)
    requires 1 <= level <= |ShellCapacities| + 1 && !(remaining > 0 && level <= |ShellCapacities|)
    ensures prefix + FillFrom(remaining, level) == prefix
  {
    assert FillFrom(remaining, level) == [];
  }

  /** `createAtom`: the identity fields as given, the shells built from the atomic number. */
  function CreateAtom(name: string, symbol: string, atomicNumber: int, neutrons: int): (a: Atom)
    ensures a.name == name && a.symbol == symbol
    ensures a.atomicNumber == atomicNumber && a.neutrons == neutrons
    ensures TotalElectrons(a.shells) == if atomicNumber <= 0 then 0 else Min(atomicNumber, 60)
    ensures forall i :: 0 <= i < |a.shells| ==> (a.shells[i].isValence <==> i == |a.shells| - 1 && atomicNumber <= 60)
  {
    BuildShellsTotal(atomicNumber);
    BuildShellsValence(atomicNumber);
    Atom(name, symbol, atomicNumber, neutrons, BuildShells(atomicNumber))
  }

  /** `defaultAtom`: oxygen, with shells of 2 and 6 electrons at radii 2.25 and 3.0. */
  function DefaultAtom(): (a: Atom)
    ensures a.name == "Oxygen" && a.symbol == "O" && a.atomicNumber == 8 && a.neutrons == 8
    ensures |a.shells| == 2
    ensures a.shells[0].level == 1 && |a.shells[0].electrons| == 2 && a.shells[0].radius == 2.25 && !a.shells[0].isValence
    ensures a.shells[1].level == 2 && |a.shells[1].electrons| == 6 && a.shells[1].radius == 3.0 && a.shells[1].isValence
  {
    CreateAtom("Oxygen", "O", 8, 8)
  }

  // ---------------------------------------------------------------------------
  // Properties of the builder

  /** The number of electrons over a list of shells. */
  function TotalElectrons(shells: seq<Shell>): nat {
    if shells == [] then 0 else |shells[0].electrons| + TotalElectrons(shells[1..])
  }

  /** How many electrons the shells from `level` onwards can hold together. */
  function CapacityFrom(level: nat): (c: int)
    requires 1 <= level <= |ShellCapacities| + 1
    ensures c >= 0
    decreases |ShellCapacities| + 1 - level
  {
    if level > |ShellCapacities| then 0 else Capacity(level) + CapacityFrom(level + 1)
  }

  lemma TotalCapacity()
    ensures CapacityFrom(1) == 60
  {
    assert CapacityFrom(5) == 0;
    assert CapacityFrom(4) == 32;
    assert CapacityFrom(3) == 50;
    assert CapacityFrom(2) == 58;
  }

  /** A shell as the builder makes it at `level`. */
  ghost predicate WellFormedShell(sh: Shell, level: int) {
    && 1 <= level <= |ShellCapacities|
    && sh.level == level
    && sh.radius == ShellRadius(level)
    && 1 <= |sh.electrons| <= Capacity(level)
    && sh.electrons == ElectronParticles(|sh.electrons|)
  }

  /** One turn of the filling loop: the shell it pushes, then the shells of the rest. */
  lemma FillFromUnfold(remaining: int, level: nat, s: seq<Shell>, rest: seq<Shell>)
    requires 1 <= level <= |ShellCapacities| && remaining > 0
    requires s == FillFrom(remaining, level) && rest == FillFrom(remaining - Taken(remaining, level), level + 1)
    ensures s == [PushedShell(remaining, level)] + rest
  {
  }

  /** How many shells the loop still pushes from `level` on. */
  lemma {:induction false} FillFromLength(remaining: int, level: nat)
    requires 1 <= level <= |ShellCapacities| + 1
    ensures |FillFrom(remaining, level)| <= |ShellCapacities| + 1 - level
    ensures |FillFrom(remaining, level)| > 0 <==> remaining > 0 && level <= |ShellCapacities|
    decreases |ShellCapacities| + 1 - level
  {
    if remaining > 0 && level <= |ShellCapacities| {
      var rest := FillFrom(remaining - Taken(remaining, level), level + 1);
      FillFromUnfold(remaining, level, FillFrom(remaining, level), rest);
      FillFromLength(remaining - Taken(remaining, level), level + 1);
    }
  }

  /** The shell pushed `i` turns after reaching `level` is well formed for its level. */
  lemma {:induction false} FillFromWellFormedAt(remaining: int, level: nat, i: nat, shellLevel: nat)
    requires 1 <= level <= |ShellCapacities| + 1
    requires i < |FillFrom(remaining, level)| && shellLevel == level + i
    ensures WellFormedShell(FillFrom(remaining, level)[i], shellLevel)
    decreases i
  {
    FillFromLength(remaining, level);
    var s, rest := FillFrom(remaining, level), FillFrom(remaining - Taken(remaining, level), level + 1);
    if i == 0 {
      FillFromUnfold(remaining, level, s, rest);
      PushedShellWellFormed(remaining, level);
    } else {
      FillFromTail(remaining, level, i, s, rest);
      FillFromWellFormedAt(remaining - Taken(remaining, level), level + 1, i - 1, shellLevel);
    }
  }

  /** The shell one turn of the loop pushes is well formed for its level. */
  lemma PushedShellWellFormed(remaining: int, level: nat)
    requires 1 <= level <= |ShellCapacities| && remaining > 0
    ensures WellFormedShell(PushedShell(remaining, level), level)
  {
    var count := Taken(remaining, level);
    assert 1 <= count <= Capacity(level);
    assert |ElectronParticles(count)| == count;
  }

  /** Every shell pushed before the last one is full. */
  lemma {:induction false} FillFromFullAt(remaining: int, level: nat, i: nat, shellLevel: nat)
    requires 1 <= level <= |ShellCapacities| + 1
    requires i < |FillFrom(remaining, level)| - 1 && shellLevel == level + i
    ensures shellLevel <= |ShellCapacities|
    ensures |FillFrom(remaining, level)[i].electrons| == Capacity(shellLevel)
    decreases i
  {
    FillFromLength(remaining, level);
    var s, rest := FillFrom(remaining, level), FillFrom(remaining - Taken(remaining, level), level + 1);
    FillFromTail(remaining, level, i + 1, s, rest);
    if i == 0 {
      FillFromUnfold(remaining, level, s, rest);
      assert |ElectronParticles(Taken(remaining, level))| == Taken(remaining, level);
    } else {
      FillFromTail(remaining, level, i, s, rest);
      FillFromFullAt(remaining - Taken(remaining, level), level + 1, i - 1, shellLevel);
    }
  }

  /** The shell pushed `i` turns on is the valence shell exactly when it is the last and nothing was dropped. */
  lemma {:induction false} FillFromValenceAt(remaining: int, level: nat, i: nat)
    requires 1 <= level <= |ShellCapacities| + 1
    requires i < |FillFrom(remaining, level)|
    ensures FillFrom(remaining, level)[i].isValence <==> i == |FillFrom(remaining, level)| - 1 && remaining <= CapacityFrom(level)
    decreases i
  {
    FillFromLength(remaining, level);
    var s, rest := FillFrom(remaining, level), FillFrom(remaining - Taken(remaining, level), level + 1);
    if i == 0 {
      ValenceHead(remaining, level, s, rest);
    } else {
      FillFromTail(remaining, level, i, s, rest);
      FillFromValenceAt(remaining - Taken(remaining, level), level + 1, i - 1);
    }
  }

  /** The first shell pushed is the valence shell exactly when it is the only one and holds everything. */
  lemma ValenceHead(remaining: int, level: nat, s: seq<Shell>, rest: seq<Shell>)
    requires 1 <= level <= |ShellCapacities| && remaining > 0
    requires s == FillFrom(remaining, level) && rest == FillFrom(remaining - Taken(remaining, level), level + 1)
    ensures |s| >= 1
    ensures s[0].isValence <==> |s| == 1 && remaining <= CapacityFrom(level)
  {
    FillFromUnfold(remaining, level, s, rest);
    FillFromLength(remaining - Taken(remaining, level), level + 1);
    assert CapacityFrom(level) == Capacity(level) + CapacityFrom(level + 1);
  }

  /** A later shell is a shell of the rest, which starts with the electrons the first shell leaves, at the next level. */
  lemma FillFromTail(remaining: int, level: nat, i: nat, s: seq<Shell>, rest: seq<Shell>)
    requires 1 <= level <= |ShellCapacities| && remaining > 0
    requires s == FillFrom(remaining, level) && rest == FillFrom(remaining - Taken(remaining, level), level + 1)
    requires 0 < i < |s|
    ensures level + 1 <= |ShellCapacities| && Taken(remaining, level) == Capacity(level)
    ensures i - 1 < |rest| && |s| == 1 + |rest| && s[i] == rest[i - 1]
    ensures remaining <= CapacityFrom(level) <==> remaining - Taken(remaining, level) <= CapacityFrom(level + 1)
  {
    var count := Taken(remaining, level);
    FillFromUnfold(remaining, level, s, rest);
    FillFromLength(remaining - count, level + 1);
    assert CapacityFrom(level) == Capacity(level) + CapacityFrom(level + 1);
    assert remaining - count > 0 && count == Capacity(level);
  }

  lemma FillFromShape(remaining: int, level: nat)
    requires 1 <= level <= |ShellCapacities| + 1
    ensures var s := FillFrom(remaining, level);
      && |s| <= |ShellCapacities| + 1 - level
      && (|s| > 0 <==> remaining > 0 && level <= |ShellCapacities|)
      && (forall i :: 0 <= i < |s| ==> WellFormedShell(s[i], level + i))
  {
    FillFromLength(remaining, level);
    forall i | 0 <= i < |FillFrom(remaining, level)| ensures WellFormedShell(FillFrom(remaining, level)[i], level + i) {
      FillFromWellFormedAt(remaining, level, i, level + i);
    }
  }

  lemma FillFromFull(remaining: int, level: nat)
    requires 1 <= level <= |ShellCapacities| + 1
    ensures var s := FillFrom(remaining, level);
      && |s| <= |ShellCapacities| + 1 - level
      && forall i :: 0 <= i < |s| - 1 ==> |s[i].electrons| == Capacity(level + i)
  {
    FillFromLength(remaining, level);
    var s := FillFrom(remaining, level);
    forall i | 0 <= i < |s| - 1 ensures |s[i].electrons| == Capacity(level + i) {
      FillFromFullAt(remaining, level, i, level + i);
    }
  }

  lemma {:induction false} FillFromTotal(remaining: int, level: nat)
    requires 1 <= level <= |ShellCapacities| + 1
    ensures TotalElectrons(FillFrom(remaining, level)) == if remaining <= 0 then 0 else Min(remaining, CapacityFrom(level))
    decreases |ShellCapacities| + 1 - level
  {
    if remaining > 0 && level <= |ShellCapacities| {
      var capacity := Capacity(level);
      var count := Taken(remaining, level);
      var s, rest := FillFrom(remaining, level), FillFrom(remaining - count, level + 1);
      FillFromUnfold(remaining, level, s, rest);
      FillFromTotal(remaining - count, level + 1);
      assert s[1..] == rest;
      assert TotalElectrons(s) == count + TotalElectrons(rest);
      var later := CapacityFrom(level + 1);
      assert CapacityFrom(level) == capacity + later;
      if remaining <= capacity {
        assert count == remaining && TotalElectrons(rest) == 0;
        assert Min(remaining, capacity + later) == remaining;
      } else {
        assert count == capacity && TotalElectrons(rest) == Min(remaining - capacity, later);
        assert Min(remaining, capacity + later) == capacity + Min(remaining - capacity, later);
      }
    } else {
      assert FillFrom(remaining, level) == [];
    }
  }

  lemma FillFromValence(remaining: int, level: nat)
    requires 1 <= level <= |ShellCapacities| + 1
    ensures var s := FillFrom(remaining, level);
      forall i :: 0 <= i < |s| ==> (s[i].isValence <==> i == |s| - 1 && remaining <= CapacityFrom(level))
  {
    var s := FillFrom(remaining, level);
    forall i | 0 <= i < |s| ensures s[i].isValence <==> i == |s| - 1 && remaining <= CapacityFrom(level) {
      FillFromValenceAt(remaining, level, i);
    }
  }

  /** The electrons over all shells are the atomic number, capped at 60. */
  lemma BuildShellsTotal(atomicNumber: int)
    ensures TotalElectrons(BuildShells(atomicNumber)) == if atomicNumber <= 0 then 0 else Min(atomicNumber, 60)
  {
    FillFromTotal(atomicNumber, 1);
    TotalCapacity();
  }

  /** There are shells exactly when the atomic number is positive. */
  lemma BuildShellsEmpty(atomicNumber: int)
    ensures BuildShells(atomicNumber) == [] <==> atomicNumber <= 0
  {
    FillFromShape(atomicNumber, 1);
  }

  /**
   * Levels run 1, 2, ... with at most four shells; each shell holds between 1
   * and its capacity of electrons, numbered from 0, at radius 1.5 + 0.75 * level;
   * every shell but the last is full.
   */
  lemma BuildShellsShape(atomicNumber: int)
    ensures var s := BuildShells(atomicNumber);
      && |s| <= 4
      && (forall i :: 0 <= i < |s| ==> WellFormedShell(s[i], i + 1))
      && (forall i :: 0 <= i < |s| - 1 ==> |s[i].electrons| == Capacity(i + 1))
  {
    FillFromShape(atomicNumber, 1);
    FillFromFull(atomicNumber, 1);
  }

  /** Only the last shell is the valence shell, and only when no electron was dropped. */
  lemma BuildShellsValence(atomicNumber: int)
    ensures var s := BuildShells(atomicNumber);
      forall i :: 0 <= i < |s| ==> (s[i].isValence <==> i == |s| - 1 && atomicNumber <= 60)
  {
    FillFromValence(atomicNumber, 1);
    TotalCapacity();
  }

  /** Above 60 electrons no shell is flagged as the valence shell. */
  lemma HeavyAtomHasNoValenceShell(atomicNumber: int)
    requires atomicNumber > 60
    ensures var s := BuildShells(atomicNumber);
      |s| == 4 && forall i :: 0 <= i < |s| ==> !s[i].isValence
  {
    FillFromShape(atomicNumber, 1);
    FillFromShape(atomicNumber - 2, 2);
    FillFromShape(atomicNumber - 10, 3);
    FillFromShape(atomicNumber - 28, 4);
    BuildShellsValence(atomicNumber);
  }
}

/**
 * Molecule construction: water, and a custom molecule whose every other atom
 * is bonded to its first atom. Generated ids are parameters: `bondId(i)` is
 * the id drawn for bond i.
 */
module MoleculeService {
  import opened AtomModel
  import AtomService

  function Oxygen(): Atom {
    AtomService.CreateAtom("Oxygen", "O", 8, 8)
  }

  function Hydrogen(): Atom {
    AtomService.CreateAtom("Hydrogen", "H", 1, 0)
  }

  /** Every bond runs from the first atom to atom i + 1, one bond for each other atom. */
  ghost predicate StarShaped(m: Molecule) {
    && |m.atoms| >= 1
    && |m.bonds| == |m.atoms| - 1
    && forall i :: 0 <= i < |m.bonds| ==> m.bonds[i].from == m.atoms[0] && m.bonds[i].to == m.atoms[i + 1]
  }

  /** `createWater`: one oxygen and two hydrogens, both bonded to the oxygen with strength 0.8. */
  function CreateWater(moleculeId: string, bondId: nat -> string): (m: Molecule)
    ensures m.id == moleculeId && m.name == "Water"
    ensures m.atoms == [Oxygen(), Hydrogen(), Hydrogen()]
    ensures m.atoms[0].atomicNumber == 8 && m.atoms[0].neutrons == 8
    ensures m.atoms[1].atomicNumber == 1 && m.atoms[1].neutrons == 0 && m.atoms[2] == m.atoms[1]
    ensures |m.bonds| == 2 && StarShaped(m)
    ensures forall i :: 0 <= i < |m.bonds| ==> m.bonds[i].strength == 0.8 && m.bonds[i].id == bondId(i)
  {
    var oxygen := Oxygen();
    var hydrogen1 := Hydrogen();
    var hydrogen2 := Hydrogen();
    Molecule(moleculeId, "Water", [oxygen, hydrogen1, hydrogen2],
      [Bond(bondId(0), oxygen, hydrogen1, 0.8), Bond(bondId(1), oxygen, hydrogen2, 0.8)])
  }

  /** The strength of custom bond i. */
  function CustomStrength(i: nat): real {
    0.6 + i as real * 0.1
  }

  /**
   * `createCustomMolecule`: the atoms as given, and bond i from the first atom
   * to atom i + 1 with strength 0.6 + 0.1 * i; no bond for fewer than two atoms.
   */
  function CreateCustomMolecule(moleculeId: string, atoms: seq<Atom>, bondId: nat -> string): (m: Molecule)
    ensures m.id == moleculeId && m.name == "Custom molecule" && m.atoms == atoms
    ensures |m.bonds| == if |atoms| > 1 then |atoms| - 1 else 0
    ensures atoms != [] ==> StarShaped(m)
    ensures forall i :: 0 <= i < |m.bonds| ==> m.bonds[i].strength == CustomStrength(i) && m.bonds[i].id == bondId(i)
  {
    Molecule(moleculeId, "Custom molecule", atoms,
      if |atoms| > 1 then seq(|atoms| - 1, i requires 0 <= i < |atoms| - 1 => Bond(bondId(i), atoms[0], atoms[i + 1], CustomStrength(i)))
      else [])
  }

  /** Custom bond strengths strictly increase and are not capped at 1: the sixth bond already exceeds it. */
  lemma CustomStrengths(moleculeId: string, atoms: seq<Atom>, bondId: nat -> string)
    ensures var b := CreateCustomMolecule(moleculeId, atoms, bondId).bonds;
      && (forall i, j :: 0 <= i < j < |b| ==> b[i].strength < b[j].strength)
      && (forall i :: 0 <= i < |b| ==> b[i].strength > 0.0)
      && (forall i :: 5 <= i < |b| ==> b[i].strength > 1.0)
  {
  }
}

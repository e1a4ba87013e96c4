/**
 * The scene store: the selected atom, the molecule under construction and the
 * selected preset key, with three transitions. Preset lookup is not part of
 * this model: `SelectAtom` receives it as a function from key to atom.
 */
module SceneStore {
  import opened AtomModel
  import AtomService
  import MoleculeService

  datatype SceneState = SceneState(atom: Atom, molecule: Molecule, atomType: string)

  /** The state at start-up, and the state every reset returns to. */
  function InitialState(moleculeId: string, bondId: nat -> string): (s: SceneState)
    ensures s.atom == AtomService.DefaultAtom() && s.atomType == "oxygen"
    ensures s.molecule == MoleculeService.CreateWater(moleculeId, bondId)
    ensures MoleculeService.StarShaped(s.molecule)
  {
    SceneState(AtomService.DefaultAtom(), MoleculeService.CreateWater(moleculeId, bondId), "oxygen")
  }

  /** `selectAtom`: a new atom and key; the molecule stays. */
  function AfterSelectAtom(s: SceneState, preset: string, createAtomFromPreset: string -> Atom): (r: SceneState)
    ensures r.atom == createAtomFromPreset(preset) && r.atomType == preset
    ensures r.molecule == s.molecule
  {
    s.(atom := createAtomFromPreset(preset), atomType := preset)
  }

  /** The molecule after `addHydrogen`. */
  function AddHydrogenTo(m: Molecule, bondId: string): (r: Molecule)
    requires |m.atoms| >= 1
    ensures r.id == m.id && r.name == m.name
    ensures |r.atoms| == |m.atoms| + 1 && r.atoms[..|m.atoms|] == m.atoms
    ensures r.atoms[|m.atoms|] == MoleculeService.Hydrogen()
    ensures r.atoms[|m.atoms|].atomicNumber == 1 && r.atoms[|m.atoms|].neutrons == 0
    ensures |r.bonds| == |m.bonds| + 1 && r.bonds[..|m.bonds|] == m.bonds
    ensures r.bonds[|m.bonds|] == Bond(bondId, m.atoms[0], MoleculeService.Hydrogen(), 0.5)
  {
    var newAtom := MoleculeService.Hydrogen();
    m.(atoms := m.atoms + [newAtom], bonds := m.bonds + [Bond(bondId, m.atoms[0], newAtom, 0.5)])
  }

  /** `addHydrogen`: only the molecule changes. */
  function AfterAddHydrogen(s: SceneState, bondId: string): (r: SceneState)
    requires |s.molecule.atoms| >= 1
    ensures r.atom == s.atom && r.atomType == s.atomType
    ensures r.molecule == AddHydrogenTo(s.molecule, bondId)
  {
    s.(molecule := AddHydrogenTo(s.molecule, bondId))
  }

  /** Adding a hydrogen keeps the molecule star-shaped around its first atom. */
  lemma AddHydrogenKeepsStar(m: Molecule, bondId: string)
    requires MoleculeService.StarShaped(m)
    ensures MoleculeService.StarShaped(AddHydrogenTo(m, bondId))
  {
    var r := AddHydrogenTo(m, bondId);
    forall i | 0 <= i < |r.bonds| ensures r.bonds[i].from == r.atoms[0] && r.bonds[i].to == r.atoms[i + 1] {
      if i < |m.bonds| {
        assert r.bonds[i] == r.bonds[..|m.bonds|][i];
        assert r.atoms[i + 1] == r.atoms[..|m.atoms|][i + 1];
      }
      assert r.atoms[0] == r.atoms[..|m.atoms|][0];
    }
  }

  /** One user action on the store. */
  datatype Action =
    | Select(preset: string)
    | AddH(bondId: string)
    | Reset(moleculeId: string, bondIds: nat -> string)

  /** The state after a sequence of actions. */
  function Run(s: SceneState, actions: seq<Action>, createAtomFromPreset: string -> Atom): SceneState
    decreases |actions|
  {
    if actions == [] then s
    else
      var next :=
        match actions[0]
        case Select(preset) => AfterSelectAtom(s, preset, createAtomFromPreset)
        case AddH(bondId) =>
          if |s.molecule.atoms| >= 1 then AfterAddHydrogen(s, bondId) else s
        case Reset(moleculeId, bondIds) => InitialState(moleculeId, bondIds);
      Run(next, actions[1..], createAtomFromPreset)
  }

  /**
   * In every state reachable from the initial one, the molecule has one bond
   * fewer than atoms and every bond starts at its first atom.
   */
  lemma {:induction false} ReachableStatesStarShaped(s: SceneState, actions: seq<Action>, createAtomFromPreset: string -> Atom)
    requires MoleculeService.StarShaped(s.molecule)
    ensures var r := Run(s, actions, createAtomFromPreset);
      && MoleculeService.StarShaped(r.molecule)
      && |r.molecule.bonds| == |r.molecule.atoms| - 1
      && forall b :: b in r.molecule.bonds ==> b.from == r.molecule.atoms[0]
    decreases |actions|
  {
    if actions != [] {
      match actions[0]
      case Select(preset) =>
        ReachableStatesStarShaped(AfterSelectAtom(s, preset, createAtomFromPreset), actions[1..], createAtomFromPreset);
      case AddH(bondId) =>
        AddHydrogenKeepsStar(s.molecule, bondId);
        ReachableStatesStarShaped(AfterAddHydrogen(s, bondId), actions[1..], createAtomFromPreset);
      case Reset(moleculeId, bondIds) =>
        ReachableStatesStarShaped(InitialState(moleculeId, bondIds), actions[1..], createAtomFromPreset);
    } else {
      var m := s.molecule;
      forall b | b in m.bonds ensures b.from == m.atoms[0] {
        var i :| 0 <= i < |m.bonds| && m.bonds[i] == b;
      }
    }
  }

  /** The store itself, its three fields replaced by each transition. */
  class Store {
    var atom: Atom
    var molecule: Molecule
    var atomType: string

    function State(): SceneState
      reads this
    {
      SceneState(atom, molecule, atomType)
    }

    ghost predicate Valid()
      reads this
    {
      MoleculeService.StarShaped(molecule)
    }

    constructor (moleculeId: string, bondId: nat -> string)
      ensures Valid() && State() == InitialState(moleculeId, bondId)
    {
      atom := AtomService.DefaultAtom();
      molecule := MoleculeService.CreateWater(moleculeId, bondId);
      atomType := "oxygen";
    }

    method SelectAtom(preset: string, createAtomFromPreset: string -> Atom)
      requires Valid()
      modifies this
      ensures Valid() && State() == AfterSelectAtom(old(State()), preset, createAtomFromPreset)
    {
      atom, atomType := createAtomFromPreset(preset), preset;
    }

    method AddHydrogen(bondId: string)
      requires Valid()
      modifies this
      ensures Valid() && State() == AfterAddHydrogen(old(State()), bondId)
    {
      var newAtom := AtomService.CreateAtom("Hydrogen", "H", 1, 0);
      var updatedAtoms := molecule.atoms + [newAtom];
      AddHydrogenKeepsStar(molecule, bondId);
      molecule := molecule.(atoms := updatedAtoms, bonds := molecule.bonds + [Bond(bondId, molecule.atoms[0], newAtom, 0.5)]);
    }

    /** `resetMolecule`: water, oxygen and "oxygen" again, whatever came before; a second reset changes nothing. */
    method ResetMolecule(moleculeId: string, bondId: nat -> string)
      modifies this
      ensures Valid() && State() == InitialState(moleculeId, bondId)
    {
      molecule, atom, atomType := MoleculeService.CreateWater(moleculeId, bondId), AtomService.DefaultAtom(), "oxygen";
    }
  }
}

/**
 * The value records of the atom model: particles, shells, atoms, bonds and
 * molecules. Generated ids of particles are not modelled; bond and molecule
 * ids are strings supplied by the caller.
 */
module AtomModel {
  import opened Wrappers

  datatype ParticleKind = Proton | Neutron | Electron

  datatype Particle = Particle(kind: ParticleKind, charge: int, positionIndex: Option<int>)

  /** A shell of the classical model; `level` starts at 1. */
  datatype Shell = Shell(level: int, electrons: seq<Particle>, radius: real, isValence: bool)

  datatype Atom = Atom(name: string, symbol: string, atomicNumber: int, neutrons: int, shells: seq<Shell>)

  /** A bond refers to its two atoms; atoms are compared by value here. */
  datatype Bond = Bond(id: string, from: Atom, to: Atom, strength: real)

  datatype Molecule = Molecule(id: string, name: string, atoms: seq<Atom>, bonds: seq<Bond>)
}

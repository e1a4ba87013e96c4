/** The records of the quantum view: orbitals of type s, p or d grouped per shell. */
module OrbitalModel {
  import opened Wrappers

  datatype OrbitalType = S | P | D

  datatype Orientation = Px | Py | Pz | Dxy | Dyz | Dxz | Dx2y2 | Dz2

  /**
   * One orbital. Its id (derived from the level, the type and the orientation
   * index) is not modelled; `phaseOffset` desynchronises the animation.
   */
  datatype Orbital = Orbital(
    kind: OrbitalType,
    principal: int,
    electrons: int,
    orientation: Option<Orientation>,
    radius: real,
    color: string,
    phaseOffset: real)

  datatype OrbitalSet = OrbitalSet(shell: int, orbitals: seq<Orbital>, isValence: bool)
}

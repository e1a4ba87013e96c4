# Atomic playground: a verified model of the atom, orbital and molecule core

This project is a Dafny model of the computational core of *atomic-playground*, a
browser app that draws atoms, molecules and their bonds in two styles: a
classical Bohr view with electrons on shells, and a quantum view with orbital
clouds.

It covers the following:

- **Atom service.** Electrons are distributed into at most four shells of
  capacities 2, 8, 18 and 32 by a `while` loop. Each shell gets a radius of
  1.5 + 0.75·level. The valence flag goes to the shell that empties the
  remaining electrons.
- **Molecule service and scene store.**
  - Water and custom molecules are built.
  - The store holds the selected atom, the molecule under construction and the
    preset key. It has three transitions: select an atom, add a hydrogen, and
    reset.
- **Settings service.**
  - A settings record is merged key by key from a stored snapshot over the
    defaults.
  - It is updated by partial records and saved after every update.
  - It is pushed to subscribed listeners, which can unsubscribe.
- **Orbital decomposition (`useOrbitals`).** The electrons of a shell are split
  into one s orbital, then up to three p orbitals (from level 2), then up to
  five d orbitals (from level 3). Each orbital holds at most two electrons.
  Each gets a principal number, a radius for its type, an orientation and a
  random phase.
- **Bohr shell view.**
  - Angular speed.
  - Elliptical orbit with wobble and a random tilt.
  - The 96-point guide ring.
  - Even spacing of electrons, and the angle each electron is drawn at in a
    frame.
- **Quantum atom view.**
  - The axis of a p orbital.
  - The particle buffer sampled around it.
  - The lobe centres, and which visuals each orbital type produces.
  - The duplicate-free material registries.
  - The per-frame time and opacity updates.
- **Quantum molecule view.**
  - Clamped approach distances and the electron bias toward the heavier
    partner.
  - The 36-sample electron-density strip with its cool-to-warm colouring.
  - Blob, pulse and arc interpolations.
  - One view per bond, with directions spread evenly around a turn.

The modules follow the source files:

| Module | Models |
|---|---|
| `AtomModel`, `SettingsModel`, `OrbitalModel` | the data records |
| `AtomService` | the atom service |
| `MoleculeService` | the molecule service |
| `SceneStore` | the scene store |
| `SettingsService` | the settings service |
| `Orbitals` | `useOrbitals` |
| `ElectronShell` | `ElectronShell.tsx` |
| `QuantumAtomRenderer` | `QuantumAtomRenderer.tsx` |
| `QuantumMoleculeRenderer` | `QuantumMoleculeRenderer.tsx` |
| `Wrappers` | `Option` |
| `JsMath` | `Math.min` on integers and on reals, `Math.max`, `Math.round` and one real-arithmetic lemma |

The model follows the source's own form:

- **Loops are methods.** `CreateShells`, `DecomposeShell`, `FillTier`,
  `UseOrbitals`, the geometry buffers, the frame callbacks and the settings
  broadcast are methods with loop invariants. Each is proved equal to a
  specification function (`BuildShells`, `Decompose`, `Tier`, and so on).
- **Properties are lemmas about those functions.**
- **State is kept in classes.** The settings service and its provider, the
  scene store, the material registry and the shader and points materials are
  classes whose methods update their fields.

Inputs that the source takes from the browser are parameters of the model:

- random draws (`Math.random`);
- generated ids (`nanoid`);
- sines and cosines;
- Gaussian samples;
- the clock;
- the preset lookup.

### Quirks of the source the model keeps

- **No valence shell above 60 electrons.** An atom with more than 60 electrons
  has no valence shell. The loop stops after four shells with electrons left
  over, so `remaining - electronsCount === 0` never holds
  (`HeavyAtomHasNoValenceShell`).
- **Noise opacity factor.** The noise-volume opacity is scaled by
  `0.75·motionScale + 0.35`.
- **Simplified eccentricity.** The eccentricity in simplified mode is exactly
  0.05.
- **Custom bond strengths can exceed 1.** Custom-molecule bond strengths
  `0.6 + 0.1·i` exceed 1 from the sixth bond on (`CustomStrengths`).
- **Default settings are partial.** The default settings record in the
  settings store omits `quantumAnimationIntensity` and `reducedMotion`. In the
  program as written `settings.quantumAnimationIntensity` is therefore
  undefined, so the frame's time base and every noise and cloud opacity come
  out as NaN, and `reducedMotion` reads as false. The model takes both as
  inputs; `CloudsStayVisible` and `NoiseOpacityMotion` hold once a number is
  supplied for the intensity.
- **Jitter on all three coordinates.** The Gaussian jitter of a p-orbital
  particle is added on all three coordinates, the one along the axis
  included.
- **`isValence` is an explicit input.** The orbital record has no `isValence`
  field, so the renderers read an absent value, which counts as false. The
  model makes that flag an explicit input to the renderer functions; the
  program only ever takes the unset branch, which `RenderedUnflagged` spells
  out (650-particle clouds, volume base opacity 0.32).
- **Two different fallback axes.** An orbital without an orientation samples
  its particles around the y axis but puts its lobes on the z axis.
- **The preset lookup is absent.** `createAtomFromPreset` and `availableAtoms`
  are imported by the scene store but are not defined in `AtomService.ts`.
  The lookup is a function parameter of `SelectAtom`.

## Model

| member | source | states |
|---|---|---|
| AtomService.Capacity | src/core/services/AtomService.ts:4 | every shell capacity is at least 2 |
| AtomService.FillFrom | src/core/services/AtomService.ts:10-27 | reference definition of the loop from a given level: while electrons remain and a level is left, push the shell that takes min(remaining, capacity) and go on with the rest at the next level; its properties are `FillFromTotal` and the `BuildShells` lemmas |
| AtomService.BuildShells | src/core/services/AtomService.ts:6-29 | reference definition of `createShells`: the filling from level 1 with all the electrons of the atom |
| AtomService.ElectronParticles | src/core/services/AtomService.ts:13-18 | exactly `count` particles, each an electron of charge -1 whose position index is its own index |
| AtomService.CreateShells | src/core/services/AtomService.ts:6-29 | the loop builds exactly the shell list `BuildShells` specifies (shell by shell, capacities 2/8/18/32, radius 1.5 + 0.75·level, valence when nothing remains) |
| AtomService.NextShell | src/core/services/AtomService.ts:11-24 | one loop iteration: the pushed shell and the number of electrons it takes, between 1 and the level's capacity |
| AtomService.CreateAtom | src/core/services/AtomService.ts:31-37 | keeps name, symbol, atomic number and neutrons; the shells hold min(Z, 60) electrons (none for Z ≤ 0), and only the last shell is valence, only when Z ≤ 60 |
| AtomService.DefaultAtom | src/core/services/AtomService.ts:39 | oxygen (Z = 8, 8 neutrons) with shells of 2 and 6 electrons at radii 2.25 and 3.0, the second the valence shell |
| AtomService.TotalCapacity | src/core/services/AtomService.ts:4 | the four shells hold 60 electrons in total |
| AtomService.BuildShellsTotal | src/core/services/AtomService.ts:6-29 | the shells hold min(Z, 60) electrons, and none when Z ≤ 0 |
| AtomService.BuildShellsEmpty | src/core/services/AtomService.ts:10 | there are no shells exactly when Z ≤ 0 |
| AtomService.BuildShellsShape | src/core/services/AtomService.ts:10-26 | at most four shells, shell i at level i + 1 with radius 1.5 + 0.75·level and 1..capacity electrons, every shell but the last full |
| AtomService.BuildShellsValence | src/core/services/AtomService.ts:23 | a shell is valence if and only if it is the last one and Z ≤ 60 |
| AtomService.HeavyAtomHasNoValenceShell | src/core/services/AtomService.ts:10-26 | above 60 electrons there are four shells and none of them is valence |
| AtomService.FillFromTotal | src/core/services/AtomService.ts:10-27 | from any level, the remaining shells take min(remaining, capacity left) electrons |
| MoleculeService.CreateWater | src/core/services/MoleculeService.ts:5-19 | one oxygen (8, 8) and two hydrogens (1, 0), two bonds of strength 0.8 from the oxygen to each hydrogen, with the drawn ids |
| MoleculeService.CreateCustomMolecule | src/core/services/MoleculeService.ts:21-28 | the atoms as given; bond i joins the first atom to atom i + 1 with strength 0.6 + 0.1·i; no bonds for fewer than two atoms |
| MoleculeService.CustomStrengths | src/core/services/MoleculeService.ts:26 | custom strengths strictly increase, are positive, and exceed 1 from the sixth bond on |
| SceneStore.InitialState | src/state/scene.store.ts:18-21 | the default atom, a water molecule and the key "oxygen"; the molecule is star-shaped |
| SceneStore.AfterSelectAtom | src/state/scene.store.ts:22-24 | the preset's atom and key replace the old ones; the molecule is unchanged |
| SceneStore.AddHydrogenTo | src/state/scene.store.ts:25-39 | one hydrogen appended to the atoms and one bond of strength 0.5 from the first atom to it appended to the bonds; all earlier atoms and bonds kept |
| SceneStore.AfterAddHydrogen | src/state/scene.store.ts:25-39 | only the molecule changes, by `AddHydrogenTo` |
| SceneStore.AddHydrogenKeepsStar | src/state/scene.store.ts:33-35 | adding a hydrogen keeps every bond running from the first atom to its own later atom |
| SceneStore.ReachableStatesStarShaped | src/state/scene.store.ts:17-41 | after any sequence of select, add and reset actions, the molecule has one bond fewer than atoms and every bond starts at its first atom |
| SceneStore.Store.constructor | src/state/scene.store.ts:18-20 | the store starts in the initial state |
| SceneStore.Store.SelectAtom | src/state/scene.store.ts:22-24 | the new state is `AfterSelectAtom` of the old one, and the star invariant holds |
| SceneStore.Store.AddHydrogen | src/state/scene.store.ts:25-39 | the new state is `AfterAddHydrogen` of the old one, and the star invariant holds |
| SceneStore.Store.ResetMolecule | src/state/scene.store.ts:40 | from any state, the store returns to the initial state |
| SettingsService.MergeKeyByKey | src/core/services/SettingsService.ts:33 | after a merge, a key present in the partial record has its value and every other key keeps the old value |
| SettingsService.Merge | src/core/services/SettingsService.ts:33 | reference definition of the object spread: each key takes the partial record's value when present and the base value otherwise; its meaning is stated by `MergeKeyByKey` |
| SettingsService.Snapshot | src/core/services/SettingsService.ts:12-14 | reference definition of a saved record, every key present with its value; its meaning is stated by `SnapshotKeyByKey` |
| SettingsService.SnapshotKeyByKey | src/core/services/SettingsService.ts:12-14 | a saved snapshot holds every key with its value |
| SettingsService.ReloadRoundTrip | src/core/services/SettingsService.ts:12-26 | loading what was saved restores exactly the saved record, whatever the defaults |
| SettingsService.MergeNoKeys | src/core/services/SettingsService.ts:25 | with nothing stored, the state is the defaults |
| SettingsService.MergeIdempotent | src/core/services/SettingsService.ts:33 | applying the same update twice equals applying it once |
| SettingsService.Broadcast | src/core/services/SettingsService.ts:35 | one notification per listener, in registration order, all carrying the same settings |
| SettingsService.Without | src/core/services/SettingsService.ts:42-44 | the filtered listener list is no longer than before and holds exactly the listeners other than the removed one |
| SettingsService.WithoutCounts | src/core/services/SettingsService.ts:42-44 | unsubscribing removes every occurrence of the listener and keeps every other listener as often as before |
| SettingsService.WithoutAppend | src/core/services/SettingsService.ts:42-44 | unsubscribing keeps the order of the remaining listeners |
| SettingsService.WithoutIdempotent | src/core/services/SettingsService.ts:42-44 | unsubscribing twice equals once, and an absent listener changes nothing |
| SettingsService.SettingsProvider.constructor | src/core/services/SettingsService.ts:6 | the provider starts with the given stored snapshot, or none |
| SettingsService.SettingsProvider.Load | src/core/services/SettingsService.ts:7-10 | returns the stored snapshot, or none |
| SettingsService.SettingsProvider.Save | src/core/services/SettingsService.ts:12-14 | stores the full record with every key present |
| SettingsService.SettingsService.constructor | src/core/services/SettingsService.ts:22-26 | the state is the stored snapshot merged over the defaults, with no listeners |
| SettingsService.SettingsService.GetSettings | src/core/services/SettingsService.ts:28-30 | returns the current state unchanged |
| SettingsService.SettingsService.UpdateSettings | src/core/services/SettingsService.ts:32-37 | the state becomes the merge, is saved, every listener is called once in order with it, and it is returned |
| SettingsService.SettingsService.Subscribe | src/core/services/SettingsService.ts:39-41 | the listener is appended and called once at once with the current state |
| SettingsService.SettingsService.Unsubscribe | src/core/services/SettingsService.ts:42-44 | every occurrence of the listener is removed; the state and the notification log are unchanged |
| Orbitals.PhaseOffset | src/modules/quantum-atom-view/hooks/useOrbitals.ts:25 | a draw in [0, 1) gives a phase in [0, 2π) |
| Orbitals.Decompose | src/modules/quantum-atom-view/hooks/useOrbitals.ts:11-73 | reference definition of one shell's orbital set: its level, the s, p and d parts in that order, and its valence flag; its properties are the `Decompose…` lemmas |
| Orbitals.FillTier | src/modules/quantum-atom-view/hooks/useOrbitals.ts:30-66 | the p or d loop appends exactly the tier `Tier` specifies and leaves `TierRemaining` electrons |
| Orbitals.DecomposeShell | src/modules/quantum-atom-view/hooks/useOrbitals.ts:11-73 | the s step and the p and d loops produce exactly `Decompose(shell)`: the shell's level, its orbitals and its valence flag |
| Orbitals.FillS | src/modules/quantum-atom-view/hooks/useOrbitals.ts:16-28 | the s step adds the s orbital of min(2, n) electrons when the shell has any, and leaves the rest |
| Orbitals.FillP | src/modules/quantum-atom-view/hooks/useOrbitals.ts:30-47 | from level 2, with electrons left after the s orbital, the p loop appends the p tier numbered on from the s part; otherwise nothing changes; it leaves what the p tier does not take |
| Orbitals.FillD | src/modules/quantum-atom-view/hooks/useOrbitals.ts:49-66 | from level 3, with electrons left after the p tier, the d loop appends the d tier numbered on from the s and p parts; otherwise nothing changes |
| Orbitals.UseOrbitals | src/modules/quantum-atom-view/hooks/useOrbitals.ts:9-75 | one orbital set per shell, in order, each the decomposition of its shell with the shell's level and valence flag |
| Orbitals.TierShape | src/modules/quantum-atom-view/hooks/useOrbitals.ts:32-46 | a tier has at most one orbital per orientation, is non-empty if and only if electrons and orientations remain, fills every orbital but the last with 2, and its electrons plus the leftover equal what it was given |
| Orbitals.DecomposeSizes | src/modules/quantum-atom-view/hooks/useOrbitals.ts:16-66 | at most 1 s, 3 p and 5 d orbitals; p only after a full s and from level 2, d only after three full p and from level 3 |
| Orbitals.DecomposeParts | src/modules/quantum-atom-view/hooks/useOrbitals.ts:16-66 | orbital i of each part has its type, the shell's level as principal, its type's radius factor (0.7, 1, 1.15), the i-th orientation of its type, the shell's colour, 1 or 2 electrons and the phase of its own draw |
| Orbitals.DecomposeElectrons | src/modules/quantum-atom-view/hooks/useOrbitals.ts:12-66 | the orbitals hold min(n, 2 + 6·[level ≥ 2] + 10·[level ≥ 3]) of the shell's n electrons |
| Orbitals.DecomposeOccupancy | src/modules/quantum-atom-view/hooks/useOrbitals.ts:16-66 | every orbital holds 1 or 2 electrons, and all but the last hold 2 |
| Orbitals.DecomposeKinds | src/modules/quantum-atom-view/hooks/useOrbitals.ts:16-66 | types run s, then p, then d; p only from level 2 and d only from level 3; the principal is the shell level; only the s orbital lacks an orientation |
| Orbitals.DecomposeOrientations | src/modules/quantum-atom-view/hooks/useOrbitals.ts:6-66 | at most one s orbital; the p and d orbitals take prefixes of px, py, pz and of dxy, dyz, dxz, dx2y2, dz2 in order |
| Orbitals.DecomposePhases | src/modules/quantum-atom-view/hooks/useOrbitals.ts:16-66 | with draws in [0, 1), every phase lies in [0, 2π) |
| Orbitals.BuiltShellsDecompose | src/modules/quantum-atom-view/hooks/useOrbitals.ts:11-73 | on the shells the atom service builds, decomposition keeps every electron except those of a fourth shell beyond 18 |
| Orbitals.SumElectronsAppend | src/modules/quantum-atom-view/hooks/useOrbitals.ts:12-66 | electron counts add over concatenated orbital lists |
| Orbitals.OfKindAppend | src/modules/quantum-atom-view/hooks/useOrbitals.ts:16-66 | selecting the orbitals of one type distributes over concatenation |
| Orbitals.TierRemainingValue | src/modules/quantum-atom-view/hooks/useOrbitals.ts:32-46 | a tier of k orientations leaves max(0, remaining − 2k) electrons |
| ElectronShell.ValenceShellsAreFaster | src/modules/atom-view/ElectronShell.tsx:15 | the valence shell turns exactly 1.4 times as fast as the others, and both speeds are positive |
| ElectronShell.Speed | src/modules/atom-view/ElectronShell.tsx:15 | for a positive animation speed the shell speed lies between 0.6 and 0.84 times it |
| ElectronShell.TiltFromDraws | src/modules/atom-view/ElectronShell.tsx:18 | draws in [0, 1) give tilts in [−0.3, 0.3) about x and y and [−0.2, 0.2) about z |
| ElectronShell.MakeOrbit | src/modules/atom-view/ElectronShell.tsx:17-25 | realistic radii are 1.14r and 0.895r with wobble 0.18; simplified radii are 1.02r and 0.985r with wobble 0.06; the ellipse is stretched along x and squeezed along z |
| ElectronShell.RealisticIsMoreEccentric | src/modules/atom-view/ElectronShell.tsx:19-22 | the realistic orbit is wider in x, narrower in z and wobblier than the simplified one |
| ElectronShell.EvenlySpaced | src/modules/atom-view/ElectronShell.tsx:27-45 | n angles starting at 0, strictly increasing inside [0, 2π), neighbours 2π/n apart |
| ElectronShell.RingAngles | src/modules/atom-view/ElectronShell.tsx:29-30 | the guide ring has 96 points |
| ElectronShell.ElectronOffsets | src/modules/atom-view/ElectronShell.tsx:40-45 | one phase offset per electron |
| ElectronShell.ElectronsStayEvenlySpaced | src/modules/atom-view/ElectronShell.tsx:47-51 | in every frame, neighbouring electrons of a shell stay 2π/n apart |
| ElectronShell.FrameAngle | src/modules/atom-view/ElectronShell.tsx:47-51 | at time 0, or at speed 0, an electron sits at its own phase offset |
| ElectronShell.UpdateElectronAngles | src/modules/atom-view/ElectronShell.tsx:47-58 | every child is placed at elapsed·speed plus its electron's offset |
| QuantumAtomRenderer.AxisFromOrientation | src/modules/quantum-atom-view/QuantumAtomRenderer.tsx:24-34 | px gives x, py gives y, and every other orientation gives z, each a unit axis (both directions of each case) |
| QuantumAtomRenderer.ParticleAxis | src/modules/quantum-atom-view/QuantumAtomRenderer.tsx:44 | no orientation gives the y axis, otherwise the orientation's axis |
| QuantumAtomRenderer.ParticleCount | src/modules/quantum-atom-view/QuantumAtomRenderer.tsx:42 | the particle count is count·densityScale rounded half up |
| QuantumAtomRenderer.CloudSizes | src/modules/quantum-atom-view/QuantumAtomRenderer.tsx:116-118 | a cloud has 650 particles at density 1, the only density the program uses; the density 1.35 of a set valence flag (the program never sets it) would give 878 |
| QuantumAtomRenderer.AxialOffset | src/modules/quantum-atom-view/QuantumAtomRenderer.tsx:47-48 | the axial distance lies in [0.4r, 1.2r) and is positive exactly when the sign draw exceeds 0.5 |
| QuantumAtomRenderer.SampleWithoutJitter | src/modules/quantum-atom-view/QuantumAtomRenderer.tsx:47-57 | without jitter a particle lies on its axis at that signed distance |
| QuantumAtomRenderer.CreateParticleGeometry | src/modules/quantum-atom-view/QuantumAtomRenderer.tsx:36-67 | a buffer of 3 values per particle, and particle i stores its sample's x, y and z at 3i, 3i + 1 and 3i + 2 |
| QuantumAtomRenderer.LobesSymmetric | src/modules/quantum-atom-view/QuantumAtomRenderer.tsx:154-156 | the two lobe centres mirror each other through the nucleus, and each lies on the orientation's axis, at +0.7r and −0.7r along it |
| QuantumAtomRenderer.LobeCentres | src/modules/quantum-atom-view/QuantumAtomRenderer.tsx:154-156 | reference definition of the two lobe centres, ±0.7r along the orientation's axis; their symmetry is `LobesSymmetric` |
| QuantumAtomRenderer.RenderOrbital | src/modules/quantum-atom-view/QuantumAtomRenderer.tsx:79-207 | s gives one volume of scale r; p gives two lobes of scale 0.6r at axis·0.7r and axis·(−0.7r) and a 650-particle cloud of radius 0.92r; d gives a knot of radius 0.5r; volumes carry base opacity 0.32, or 0.45 when the valence flag is set (the program never sets it) |
| QuantumAtomRenderer.RenderedUnflagged | src/modules/quantum-atom-view/QuantumAtomRenderer.tsx:86-179 | with the valence flag unset, as the program always leaves it, every volume stores base opacity 0.32, a p cloud has 650 particles with base 0.18, range 0.08 and size 0.05, and a d knot is drawn at opacity 0.25 |
| QuantumAtomRenderer.OrbitalMaterialCounts | src/modules/quantum-atom-view/QuantumAtomRenderer.tsx:194-207 | per orbital: s registers one noise material, p two and one particle material, d none |
| QuantumAtomRenderer.RenderedMaterialCounts | src/modules/quantum-atom-view/QuantumAtomRenderer.tsx:266-283 | a list of orbitals registers #s + 2·#p noise materials and #p particle materials |
| QuantumAtomRenderer.SetTilt | src/modules/quantum-atom-view/QuantumAtomRenderer.tsx:257 | an orbital set is tilted if and only if it is the valence shell |
| QuantumAtomRenderer.MotionScale | src/modules/quantum-atom-view/QuantumAtomRenderer.tsx:230 | the motion scale lies in (0, 1] and is below 1 exactly under reduced motion |
| QuantumAtomRenderer.TimeBase | src/modules/quantum-atom-view/QuantumAtomRenderer.tsx:229-232 | the animation time is 0 when the elapsed time, the animation speed or the intensity is 0 |
| QuantumAtomRenderer.ReducedMotionHalvesTime | src/modules/quantum-atom-view/QuantumAtomRenderer.tsx:230-232 | reduced motion halves the animation time |
| QuantumAtomRenderer.NoiseTimesStaggered | src/modules/quantum-atom-view/QuantumAtomRenderer.tsx:237 | noise materials are staggered by 0.12 per index |
| QuantumAtomRenderer.NoiseTime | src/modules/quantum-atom-view/QuantumAtomRenderer.tsx:237 | reference definition of a noise material's time: the frame time plus 0.12 per registry index plus its phase (0 when unset); the stagger is `NoiseTimesStaggered` |
| QuantumAtomRenderer.NoiseOpacity | src/modules/quantum-atom-view/QuantumAtomRenderer.tsx:236-238 | the opacity is capped at 1, is non-negative for non-negative inputs, and otherwise equals base·(0.7 + 0.5·intensity)·(0.75·motion + 0.35) |
| QuantumAtomRenderer.NoiseOpacityMotion | src/modules/quantum-atom-view/QuantumAtomRenderer.tsx:238 | reduced motion never raises the noise opacity; at full intensity and motion it is base·1.2·1.1 |
| QuantumAtomRenderer.ParticleOpacity | src/modules/quantum-atom-view/QuantumAtomRenderer.tsx:245-250 | the cloud opacity is capped at 1 and otherwise equals base·pulse + range·damping·wave |
| QuantumAtomRenderer.PulseAngle | src/modules/quantum-atom-view/QuantumAtomRenderer.tsx:242-249 | reference definition of a cloud's pulse angle: 0.9 times the frame time plus its phase (0 when unset) plus 0.35 per registry index |
| QuantumAtomRenderer.CloudsStayVisible | src/modules/quantum-atom-view/QuantumAtomRenderer.tsx:241-252 | with intensity at least 0.5, the cloud opacity stays positive whatever the wave |
| QuantumAtomRenderer.NoiseMaterial.constructor | src/modules/quantum-atom-view/QuantumAtomRenderer.tsx:98-101 | a new volume material has opacity 0.3, or 0.45 when the valence flag is set (the program never sets it), and no phase or base opacity |
| QuantumAtomRenderer.NoiseMaterial.Prepare | src/modules/quantum-atom-view/QuantumAtomRenderer.tsx:86-93 | the base opacity 0.32, or 0.45 when the valence flag is set (the program never sets it), is stored and applied |
| QuantumAtomRenderer.PointsMaterial.constructor | src/modules/quantum-atom-view/QuantumAtomRenderer.tsx:136-142 | a new cloud material has opacity 0.22 and nothing stored |
| QuantumAtomRenderer.PointsMaterial.Prepare | src/modules/quantum-atom-view/QuantumAtomRenderer.tsx:124-132 | stores the phase, base opacity 0.18, range 0.08 and size 0.05, or 0.23, 0.12 and 0.058 when the valence flag is set (the program never sets it) |
| QuantumAtomRenderer.MaterialRegistry.constructor | src/modules/quantum-atom-view/QuantumAtomRenderer.tsx:213-214 | both registries start empty |
| QuantumAtomRenderer.MaterialRegistry.RegisterNoise | src/modules/quantum-atom-view/QuantumAtomRenderer.tsx:216-221 | a material not yet listed is appended and keeps its phase or gets draw·2π; a listed one changes nothing; no duplicates |
| QuantumAtomRenderer.MaterialRegistry.RegisterParticle | src/modules/quantum-atom-view/QuantumAtomRenderer.tsx:223-227 | a material not yet listed is appended, otherwise nothing changes; no duplicates |
| QuantumAtomRenderer.MaterialRegistry.Frame | src/modules/quantum-atom-view/QuantumAtomRenderer.tsx:229-253 | every noise material gets its staggered time and capped opacity; every cloud gets its pulsing opacity; every stored phase, base opacity, range and size is kept |
| QuantumAtomRenderer.MaterialRegistry.AnimateNoise | src/modules/quantum-atom-view/QuantumAtomRenderer.tsx:234-239 | the noise pass, material by material |
| QuantumAtomRenderer.MaterialRegistry.AnimateParticles | src/modules/quantum-atom-view/QuantumAtomRenderer.tsx:241-252 | the cloud pass, material by material, with fallbacks 0.18 and 0.08; phase, base opacity, range and size are kept |
| QuantumMoleculeRenderer.Clamp | src/modules/atom-view/QuantumMoleculeRenderer.tsx:14 | the result never exceeds `hi`, is at least `lo` when the bounds are ordered, and equals the value inside the bounds |
| QuantumMoleculeRenderer.ClampMonotone | src/modules/atom-view/QuantumMoleculeRenderer.tsx:14 | clamping preserves order |
| QuantumMoleculeRenderer.StartDistance | src/modules/atom-view/QuantumMoleculeRenderer.tsx:69 | the start distance lies in [1.4, 3.1] and is 3.1 − 1.2·strength for strengths in [0, 1] |
| QuantumMoleculeRenderer.EndDistance | src/modules/atom-view/QuantumMoleculeRenderer.tsx:70 | the end distance lies in [0.75, 1.4] and is 1.15 − 0.35·strength for strengths in [0, 1] |
| QuantumMoleculeRenderer.ApproachShrinks | src/modules/atom-view/QuantumMoleculeRenderer.tsx:69-70 | the atoms always end closer than they start |
| QuantumMoleculeRenderer.StrongerBondsAreCloser | src/modules/atom-view/QuantumMoleculeRenderer.tsx:69-70 | a stronger bond starts and ends closer |
| QuantumMoleculeRenderer.ElectronBias | src/modules/atom-view/QuantumMoleculeRenderer.tsx:72-76 | zero for a zero total; in [−1, 1], and positive or negative exactly when the target atom is heavier or lighter |
| QuantumMoleculeRenderer.BiasAntisymmetric | src/modules/atom-view/QuantumMoleculeRenderer.tsx:72-76 | swapping the bond's ends negates the bias |
| QuantumMoleculeRenderer.SampleTRange | src/modules/atom-view/QuantumMoleculeRenderer.tsx:24 | the sample parameter runs from 0 to 1 without decreasing |
| QuantumMoleculeRenderer.MixAmount | src/modules/atom-view/QuantumMoleculeRenderer.tsx:31 | the colour mix lies in [0, 1] |
| QuantumMoleculeRenderer.MixNonDecreasing | src/modules/atom-view/QuantumMoleculeRenderer.tsx:31 | along the strip the colour mix never decreases |
| QuantumMoleculeRenderer.Lerp | src/modules/atom-view/QuantumMoleculeRenderer.tsx:89 | the interpolation gives the start at t = 0 and the end at t = 1 |
| QuantumMoleculeRenderer.SampleColourBetween | src/modules/atom-view/QuantumMoleculeRenderer.tsx:31-35 | each channel of each sample's colour lies between the cool and the warm value |
| QuantumMoleculeRenderer.DensityPosition | src/modules/atom-view/QuantumMoleculeRenderer.tsx:25-29 | reference definition of a density sample's position from t, the bias and the sine and cosine of 2πt; its shape is `StripRunsAlongBond` |
| QuantumMoleculeRenderer.StripRunsAlongBond | src/modules/atom-view/QuantumMoleculeRenderer.tsx:25-27 | the strip's x coordinate increases along the bond and is antisymmetric about its middle |
| QuantumMoleculeRenderer.CreateElectronDensityGeometry | src/modules/atom-view/QuantumMoleculeRenderer.tsx:16-43 | 36 samples × 3 values in each buffer; sample i stores its position and its colour at 3i .. 3i + 2 |
| QuantumMoleculeRenderer.LeftBlob | src/modules/atom-view/QuantumMoleculeRenderer.tsx:86-90 | reference definition of the bond-coloured blob's x, interpolated from −start/2 to −end/2; its motion is `BlobsSymmetric` and `BlobsNeverCross` |
| QuantumMoleculeRenderer.RightBlob | src/modules/atom-view/QuantumMoleculeRenderer.tsx:109-113 | reference definition of the overlap-coloured blob's x, interpolated from start/2 to end/2; its motion is `BlobsSymmetric` and `BlobsNeverCross` |
| QuantumMoleculeRenderer.BlobsSymmetric | src/modules/atom-view/QuantumMoleculeRenderer.tsx:86-113 | the blobs mirror each other, start at ±start/2 and end at ±end/2 |
| QuantumMoleculeRenderer.BlobsNeverCross | src/modules/atom-view/QuantumMoleculeRenderer.tsx:86-113 | during the approach the gap between the blobs stays between the end and the start distance |
| QuantumMoleculeRenderer.PulseScale | src/modules/atom-view/QuantumMoleculeRenderer.tsx:133 | over the pulse range the overlap scale stays within [0.9475, 1.07] |
| QuantumMoleculeRenderer.OverlapHeight | src/modules/atom-view/QuantumMoleculeRenderer.tsx:132 | the overlap height stays within [0.03, 0.13] |
| QuantumMoleculeRenderer.ArcScale | src/modules/atom-view/QuantumMoleculeRenderer.tsx:166 | the arc scale stays within [0.9, 1.15] |
| QuantumMoleculeRenderer.BondColours | src/modules/atom-view/QuantumMoleculeRenderer.tsx:80-81 | each mode has its own colour pair (both directions), and the bond and overlap colours always differ |
| QuantumMoleculeRenderer.RenderMolecule | src/modules/atom-view/QuantumMoleculeRenderer.tsx:181-207 | nothing is drawn exactly when there are no bonds; otherwise one view per bond in order, with angles starting at 0 and strictly increasing inside [0, 2π), and each bond ending closer than it starts |
| JsMath.Min | src/core/services/AtomService.ts:12 | the result is one of the two arguments and at most each |
| JsMath.Round | src/modules/quantum-atom-view/QuantumAtomRenderer.tsx:42 | rounds half up: r ≤ x + 0.5 < r + 1 |

## Left out

- Drawing (JSX, three.js meshes and lines, the GLSL noise shader, materials' colour management) is not modelled. The model stops at the numbers each component computes.
- Trigonometry is not modelled. Sines and cosines are inputs, and the coordinates of ring points and electrons (cos·xRadius, sin(0.9·angle)·wobble, sin·zRadius) and their Euler or quaternion rotation are left out. Only the angles are modelled.
- The Gaussian sampler (Box–Muller) is not modelled. Gaussian samples are inputs.
- `Math.random`, `nanoid` and the clock are inputs: draws as functions from index to real, ids as strings or functions from index to string, and the elapsed time as a real. The ids of particles and orbitals are left out: the computation modelled here does not read them, and the source uses them only as React keys.
- NaN is not modelled. With the default settings as the store builds them the intensity is undefined and the frame's opacities become NaN; the model takes the intensity as a real input instead.
- Floating point is not modelled. All numbers are exact reals or integers, including the Float32 buffers. π is the decimal constant of the nearest double.
- Non-integer atomic numbers are not modelled. The atomic number is an integer.
- Storage is not modelled. The settings provider is an in-memory class: `localStorage`, the storage key and JSON encoding are left out. A saved record is read back with all its keys, and keys explicitly set to `undefined` in a partial record are not modelled.
- Listener functions are modelled by number. Calling one is recorded as a notification. A listener that subscribes or unsubscribes while being called is not modelled.
- Atoms are compared by value. The source compares atom objects by identity.
- The preset table (`createAtomFromPreset`, `availableAtoms`) is not part of this model. It is an input function from key to atom.
- The logger, localisation, layouts, home view, settings panel, molecule builder, nucleus, valence highlight and bonding animation are not part of this model.
- The spring animation (duration 2600/animationSpeed, looping back and forth) is not modelled. The approach `t` and the pulse value are inputs in their ranges.
- The colour strings of rings, electrons and orbitals are not modelled, and the strip's two colours are inputs as RGB triples.
- The mesh scale effect of an orbital volume is modelled only as the `scale` of its visual. The React effect order, re-renders and memoisation are not modelled.
- SceneStore.AfterAddHydrogen requires a molecule with at least one atom. The source would bond an undefined first atom, which no reachable state allows (`ReachableStatesStarShaped`).
- ElectronShell.RingAngles and ElectronShell.ElectronOffsets state only their lengths themselves; their spacing and range come from `EvenlySpaced`, which they are defined by.

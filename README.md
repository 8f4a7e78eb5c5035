# Boundary-condition loader of nalu-wind, modelled in Dafny

This project models how nalu-wind turns one YAML configuration node into a
boundary-condition record (`BoundaryCondition::load` in
`src/BoundaryConditions.C`). It also models the short ownership chain from a
record to its `BoundaryConditions` collection, then to the owning `Realm`, then
to the root `Simulation`.

The loader tests eight top-level keys in a fixed order:
`wall_boundary_condition`, `inflow_boundary_condition`,
`open_boundary_condition`, `symmetry_boundary_condition`,
`abltop_boundary_condition`, `periodic_boundary_condition`,
`non_conformal_boundary_condition`, `overset_boundary_condition`. For the
first key that is present, it allocates a record of the matching kind. The
record is owned by the loader's own collection and is filled from the node. If
none of the keys is present, the loader throws the runtime error
`parser error BoundaryConditions::load: no such bc type`.

Files:

- `wrappers.dfy`: module `Wrappers`, holding `Option` and `Result`.
- `boundary_conditions.dfy`: module `BoundaryConditions`, which contains:
  - the kinds (`BcKind`) and their keys (`KeyOf`, in the test order `Priority`);
  - the dispatch as a pure function (`Select`, the same if/else chain as the
    source), and a reference definition of "first present key in an order"
    (`FirstPresentIndex`), with lemmas that connect the two;
  - the classes `Simulation`, `Realm`, `BoundaryConditions` and
    `BoundaryCondition`, where `BoundaryCondition.Load` allocates and returns
    a fresh record;
  - a small client, `WallOnlyScenario`, which loads a node holding only the
    wall key and a node holding none of the keys.

Modelling choices:

- A configuration node is modelled as its set of top-level keys plus an
  opaque payload (`ConfigNode<P>`).
- The parsing step `node >> record` comes from parsing code that is not part
  of this model. It is a function `parse` that the caller supplies. It maps a
  kind and the payload to the record's fields: `bcName_`, `targetName_`, and
  for a periodic record `masterSlave_.master_` and `masterSlave_.slave_`.
- The C++ subclasses (`WallBoundaryConditionData`, …) become one class with a
  constant `kind`. The plain base record that calls `load` has no kind.
- The C++ references `boundaryConditions_` and `realm_` cannot be reseated.
  They are modelled as `const` fields.

The keys are sometimes described as mutually exclusive. The code does not
require that: when several keys are present, it takes the first one in the
fixed order. The model follows the code.

## Model

| member | source | states |
|---|---|---|
| `BoundaryConditions.Select` | src/BoundaryConditions.C:45-105 | No kind is selected exactly when none of the eight keys is present. A selected kind's key is present. Every kind tested before the selected one has its key absent. A node with the wall key yields Wall, whatever other keys it holds. |
| `BoundaryConditions.FirstPresentIndex` | src/BoundaryConditions.C:47-102 | Reference definition for any test order. The result is the index of the first kind whose key is present, or the length of the order when there is none. Every earlier kind's key is absent. |
| `BoundaryConditions.SelectIsFirstInPriority` | src/BoundaryConditions.C:47-105 | The loader's if/else chain agrees with the reference definition applied to the order wall, inflow, open, symmetry, abltop, periodic, non_conformal, overset. |
| `BoundaryConditions.SelectedIffFirstPresent` | src/BoundaryConditions.C:47-102 | Both directions: a kind is selected if and only if its key is present and every key tested before it is absent. |
| `BoundaryConditions.SamePatternSameKind` | src/BoundaryConditions.C:45-105 | Two nodes with the same presence pattern over the eight keys select the same kind. |
| `BoundaryConditions.UnrecognisedKeysIgnored` | src/BoundaryConditions.C:45-105 | Dropping every key except the eight recognised ones leaves the selection unchanged. |
| `BoundaryConditions.Rank` | src/BoundaryConditions.C:47-97 | The position of each kind in the test order, where the order at that position is the kind itself. |
| `BoundaryConditions.RecognisedKeys` | src/BoundaryConditions.C:47-97 | The key set contains the key of every kind, and nothing else. |
| `BoundaryConditions.Filled` | src/BoundaryConditions.C:49-99 | Reading into a record sets its name and target from the parsed fields. Only a periodic record takes the master/slave pair; the others keep the empty pair. |
| `BoundaryConditions.BoundaryCondition.OfKind` | src/BoundaryConditions.C:48 | A new record of the given kind is owned by the given collection, and all its fields start empty. |
| `BoundaryConditions.BoundaryCondition.Fill` | src/BoundaryConditions.C:49 | After `node >> bc`, the record's fields are what `Filled` gives for its kind and the parsed fields. |
| `BoundaryConditions.BoundaryCondition.NewRecord` | src/BoundaryConditions.C:48-52 | Produces a fresh record of the given kind, owned by the loader's collection and filled from the node's payload. |
| `BoundaryConditions.BoundaryCondition.Load` | src/BoundaryConditions.C:45-110 | The call fails exactly when `Select` finds no kind, and then the error is the runtime error "no such bc type" and no record is returned. Otherwise it returns a fresh non-null record of the selected kind. That record is owned by the loader's own collection, has the loader's root, and is filled from the node. |
| `BoundaryConditions.BoundaryCondition.Parent` | src/BoundaryConditions.C:113 | Returns the collection stored at construction. |
| `BoundaryConditions.BoundaryCondition.Root` | src/BoundaryConditions.C:112 | A record's root is its collection's root, which is the owning realm's root. |
| `BoundaryConditions.BoundaryConditions.Parent` | src/BoundaryConditions.C:116 | Returns the realm stored at construction. |
| `BoundaryConditions.BoundaryConditions.Root` | src/BoundaryConditions.C:115 | A collection's root is the simulation its realm reports as root. |

## Left out

- The log lines written through `NaluEnv::self().naluOutputP0()` after each record is filled (src/BoundaryConditions.C:50-51, 57-58, …). They are output only.
- What `node >> record` actually parses. The parsing operators and the yaml-cpp node API are not part of this model. Parsing is a caller-supplied total function, so failures inside it, such as a missing sub-key, are not modelled.
- The `return 0` after the if/else chain (src/BoundaryConditions.C:106-109). It only exists to silence a compiler warning and cannot be reached.
- `Realm::root()` is not part of this model. A realm is reduced to the simulation it reports as its root.
- The collection's own loop that calls `load` and stores the returned pointers is not part of this model, and neither is its release of records. `Load` returns the record and does not transfer it into a container.
- BoundaryConditions.BoundaryCondition.Load: says the returned record is fresh and that the call modifies no existing object. It cannot count allocations, so "exactly one record is allocated, and none on the error path" is stated only as "the error result holds no record".
- `include/SolverAlgorithm.h` and `include/AssembleHeatCondIrradWallSolverAlgorithm.h`. They hold only declarations without bodies, and they are built on device concurrency (Kokkos); any assembly semantics would be invented.
- `src/user_functions/SteadyThermal3dContactSrcElemKernel.C`. It is a floating-point manufactured source term evaluated with master-element code that is not part of this model.

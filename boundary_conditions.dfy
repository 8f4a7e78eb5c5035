/**
  Boundary-condition records of a realm and the loader that turns one
  configuration node into a record.

  The loader tests eight top-level keys in a fixed order and builds a record
  of the kind of the first key present; a node with none of them is a parser
  error. Every record belongs to a BoundaryConditions collection, which in
  turn belongs to a Realm, and asking a record for the root simulation asks
  the collection, which asks the realm.
 */
module BoundaryConditions {
  import opened Wrappers

  // ---------------------------------------------------------------------
  // Record kinds and their configuration keys
  // ---------------------------------------------------------------------

  /** The eight kinds of boundary-condition record the loader can build. */
  datatype BcKind =
    | Wall | Inflow | Open | Symmetry | AblTop | Periodic | NonConformal | Overset

  /** The top-level configuration key that selects each kind. */
  function KeyOf(k: BcKind): string
  {
    match k
    case Wall => "wall_boundary_condition"
    case Inflow => "inflow_boundary_condition"
    case Open => "open_boundary_condition"
    case Symmetry => "symmetry_boundary_condition"
    case AblTop => "abltop_boundary_condition"
    case Periodic => "periodic_boundary_condition"
    case NonConformal => "non_conformal_boundary_condition"
    case Overset => "overset_boundary_condition"
  }

  /** The order in which the loader tests the keys. */
  const Priority: seq<BcKind> :=
    [Wall, Inflow, Open, Symmetry, AblTop, Periodic, NonConformal, Overset]

  /** The position of a kind in the test order. */
  function Rank(k: BcKind): (n: nat)
    ensures n < |Priority| && Priority[n] == k
  {
    match k
    case Wall => 0
    case Inflow => 1
    case Open => 2
    case Symmetry => 3
    case AblTop => 4
    case Periodic => 5
    case NonConformal => 6
    case Overset => 7
  }

  /** The set of keys the loader recognises. */
  function RecognisedKeys(): (ks: set<string>)
    ensures forall k: BcKind :: KeyOf(k) in ks
    ensures forall s :: s in ks ==> exists k: BcKind :: KeyOf(k) == s
  {
    set k: BcKind | k in Priority :: KeyOf(k)
  }

  // ---------------------------------------------------------------------
  // The dispatch
  // ---------------------------------------------------------------------

  /**
    The kind the loader selects for a node whose top-level keys are `keys`,
    tested in the loader's own order, or None when no key is recognised.
   */
  function Select(keys: set<string>): (r: Option<BcKind>)
    ensures r.None? <==> forall k: BcKind :: KeyOf(k) !in keys
    ensures r.Some? ==> KeyOf(r.value) in keys
    ensures r.Some? ==> forall k: BcKind :: Rank(k) < Rank(r.value) ==> KeyOf(k) !in keys
    ensures KeyOf(Wall) in keys ==> r == Some(Wall)
  {
    if KeyOf(Wall) in keys then Some(Wall)
    else if KeyOf(Inflow) in keys then Some(Inflow)
    else if KeyOf(Open) in keys then Some(Open)
    else if KeyOf(Symmetry) in keys then Some(Symmetry)
    else if KeyOf(AblTop) in keys then Some(AblTop)
    else if KeyOf(Periodic) in keys then Some(Periodic)
    else if KeyOf(NonConformal) in keys then Some(NonConformal)
    else if KeyOf(Overset) in keys then Some(Overset)
    else None
  }

  /**
    Reference definition of "the first kind in `order` whose key is present":
    its index in `order`, or |order| when there is none.
   */
  function FirstPresentIndex(order: seq<BcKind>, keys: set<string>): (i: nat)
    ensures i <= |order|
    ensures i < |order| ==> KeyOf(order[i]) in keys
    ensures forall j :: 0 <= j < i ==> KeyOf(order[j]) !in keys
    decreases |order|
  {
    if order == [] then 0
    else if KeyOf(order[0]) in keys then 0
    else 1 + FirstPresentIndex(order[1..], keys)
  }

  /** The if-chain selects exactly the first kind of the test order whose key is present. */
  lemma SelectIsFirstInPriority(keys: set<string>)
    ensures var i := FirstPresentIndex(Priority, keys);
            Select(keys) == if i < |Priority| then Some(Priority[i]) else None
  {
  }

  /**
    Priority order, both directions: kind `k` is selected exactly when its key
    is present and the key of every kind tested before it is absent.
   */
  lemma SelectedIffFirstPresent(keys: set<string>, k: BcKind)
    ensures Select(keys) == Some(k) <==>
            KeyOf(k) in keys && forall j: BcKind :: Rank(j) < Rank(k) ==> KeyOf(j) !in keys
  {
  }

  /**
    The outcome depends only on which of the eight keys are present: two nodes
    with the same presence pattern select the same kind, whatever else they hold.
   */
  lemma SamePatternSameKind(keys1: set<string>, keys2: set<string>)
    requires forall k: BcKind :: KeyOf(k) in keys1 <==> KeyOf(k) in keys2
    ensures Select(keys1) == Select(keys2)
  {
  }

  /** Keys the loader does not recognise never change the selection. */
  lemma UnrecognisedKeysIgnored(keys: set<string>)
    ensures Select(keys) == Select(keys * RecognisedKeys())
  {
    SamePatternSameKind(keys, keys * RecognisedKeys());
  }

  // ---------------------------------------------------------------------
  // Record contents and errors
  // ---------------------------------------------------------------------

  /** The master and slave part names of a periodic pair. */
  datatype MasterSlave = MasterSlave(master: string, slave: string)

  /** The fields the configuration fills in a record. */
  datatype BcFields = BcFields(bcName: string, targetName: string, masterSlave: MasterSlave)

  /** A record's fields before anything is read into it (empty strings). */
  const EmptyFields := BcFields("", "", MasterSlave("", ""))

  /**
    A configuration node: its top-level keys and whatever else it holds,
    which only the parsing step reads.
   */
  datatype ConfigNode<P> = ConfigNode(keys: set<string>, payload: P)

  /** The message of the parser error raised for a node of no known kind. */
  const NoSuchBcTypeMessage := "parser error BoundaryConditions::load: no such bc type"

  datatype LoadError = RuntimeError(message: string)

  /**
    What a record of kind `k` holds after `parsed` is read into it: only a
    periodic record has a master/slave pair, the others keep the empty one.
   */
  function Filled(k: BcKind, parsed: BcFields): (f: BcFields)
    ensures f.bcName == parsed.bcName && f.targetName == parsed.targetName
    ensures f.masterSlave == if k == Periodic then parsed.masterSlave else EmptyFields.masterSlave
  {
    if k == Periodic then parsed else parsed.(masterSlave := EmptyFields.masterSlave)
  }

  // ---------------------------------------------------------------------
  // The ownership chain
  // ---------------------------------------------------------------------

  /** The top-level simulation object; nothing of it is modelled but its identity. */
  class Simulation {
    constructor () { }
  }

  /** A realm, reduced to the simulation it reports as its root. */
  class Realm {
    const simulation: Simulation

    constructor (simulation: Simulation)
      ensures this.simulation == simulation
    {
      this.simulation := simulation;
    }

    function Root(): Simulation
    {
      simulation
    }
  }

  /** The collection of a realm's boundary conditions. */
  class BoundaryConditions {
    const realm: Realm

    constructor (realm: Realm)
      ensures this.realm == realm
    {
      this.realm := realm;
    }

    /** The owning realm, as stored at construction. */
    function Parent(): (p: Realm)
      ensures p == realm
    {
      realm
    }

    /** The root of a collection is its realm's root simulation. */
    function Root(): (s: Simulation)
      ensures s == realm.simulation
    {
      Parent().Root()
    }
  }

  /**
    A boundary-condition record. The record kinds of the configuration are
    distinguished by `kind`; the plain record the collection uses to call the
    loader has no kind.
   */
  class BoundaryCondition {
    const boundaryConditions: BoundaryConditions
    const kind: Option<BcKind>
    var bcName: string
    var targetName: string
    var masterSlave: MasterSlave

    /** The current contents of the record. */
    ghost function Fields(): BcFields
      reads this
    {
      BcFields(bcName, targetName, masterSlave)
    }

    /** A plain record owned by `bcs`. */
    constructor (bcs: BoundaryConditions)
      ensures boundaryConditions == bcs && kind == None && Fields() == EmptyFields
    {
      boundaryConditions := bcs;
      kind := None;
      bcName, targetName, masterSlave := "", "", MasterSlave("", "");
    }

    /** A record of kind `k` owned by `bcs`, before anything is read into it. */
    constructor OfKind(bcs: BoundaryConditions, k: BcKind)
      ensures boundaryConditions == bcs && kind == Some(k) && Fields() == EmptyFields
    {
      boundaryConditions := bcs;
      kind := Some(k);
      bcName, targetName, masterSlave := "", "", MasterSlave("", "");
    }

    /** The owning collection, as stored at construction. */
    function Parent(): (p: BoundaryConditions)
      ensures p == boundaryConditions
    {
      boundaryConditions
    }

    /** The root of a record is its collection's root, which is the realm's root. */
    function Root(): (s: Simulation)
      ensures s == boundaryConditions.Root() && s == boundaryConditions.realm.Root()
    {
      Parent().Root()
    }

    /** Reads the parsed configuration into a record of kind `k`. */
    method Fill(parsed: BcFields)
      requires kind.Some?
      modifies this
      ensures Fields() == Filled(kind.value, parsed)
    {
      bcName := parsed.bcName;
      targetName := parsed.targetName;
      if kind == Some(Periodic) {
        masterSlave := parsed.masterSlave;
      } else {
        masterSlave := MasterSlave("", "");
      }
    }

    /** Allocates a record of kind `k` owned by this record's collection and fills it. */
    method NewRecord<P>(k: BcKind, node: ConfigNode<P>, parse: (BcKind, P) -> BcFields)
      returns (bc: BoundaryCondition)
      ensures fresh(bc)
      ensures bc.boundaryConditions == boundaryConditions && bc.kind == Some(k)
      ensures bc.Fields() == Filled(k, parse(k, node.payload))
    {
      bc := new BoundaryCondition.OfKind(Parent(), k);
      bc.Fill(parse(k, node.payload));
    }

    /**
      Builds the record that `node` describes. `parse` stands for reading a
      node into a record of the given kind. The result is a new record of the
      kind of the first recognised key present, owned by this record's
      collection and filled from the node; with no recognised key it is the
      parser error, and then no record exists.
     */
    method Load<P>(node: ConfigNode<P>, parse: (BcKind, P) -> BcFields)
      returns (r: Result<BoundaryCondition, LoadError>)
      ensures r.Err? <==> Select(node.keys).None?
      ensures r.Err? ==> r.error == RuntimeError(NoSuchBcTypeMessage)
      ensures r.Ok? ==> fresh(r.value) && r.value.kind == Select(node.keys)
      ensures r.Ok? ==> r.value.boundaryConditions == boundaryConditions
      ensures r.Ok? ==> r.value.Root() == Root()
      ensures r.Ok? ==> r.value.Fields() == Filled(r.value.kind.value, parse(r.value.kind.value, node.payload))
    {
      var bc: BoundaryCondition;
      if KeyOf(Wall) in node.keys {
        bc := NewRecord(Wall, node, parse);
      } else if KeyOf(Inflow) in node.keys {
        bc := NewRecord(Inflow, node, parse);
      } else if KeyOf(Open) in node.keys {
        bc := NewRecord(Open, node, parse);
      } else if KeyOf(Symmetry) in node.keys {
        bc := NewRecord(Symmetry, node, parse);
      } else if KeyOf(AblTop) in node.keys {
        bc := NewRecord(AblTop, node, parse);
      } else if KeyOf(Periodic) in node.keys {
        bc := NewRecord(Periodic, node, parse);
      } else if KeyOf(NonConformal) in node.keys {
        bc := NewRecord(NonConformal, node, parse);
      } else if KeyOf(Overset) in node.keys {
        bc := NewRecord(Overset, node, parse);
      } else {
        return Err(RuntimeError(NoSuchBcTypeMessage));
      }
      return Ok(bc);
    }
  }

  /**
    A client: a node holding only the wall key gives one fresh Wall record with
    the parsed name and target, owned by the loader's collection; a node with
    none of the eight keys gives the parser error.
   */
  method WallOnlyScenario()
  {
    var sim := new Simulation();
    var realm := new Realm(sim);
    var bcs := new BoundaryConditions(realm);
    var loader := new BoundaryCondition(bcs);
    var parse := (k: BcKind, p: BcFields) => p;
    var fields := BcFields("wall_1", "surface_1", MasterSlave("", ""));

    var r := loader.Load(ConfigNode({KeyOf(Wall)}, fields), parse);
    assert r.Ok? && r.value.kind == Some(Wall);
    assert r.value.bcName == "wall_1" && r.value.targetName == "surface_1";
    assert r.value.Parent() == bcs && r.value.Root() == sim;

    r := loader.Load(ConfigNode({"solution_options"}, fields), parse);
    assert r == Err(RuntimeError(NoSuchBcTypeMessage));
  }
}

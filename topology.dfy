/**
 * The entities the LAMMPS codec reads and writes: sites, connection types,
 * connections (bonds, angles, dihedrals, impropers) and the topology that
 * collects them. The topology's own bookkeeping (de-duplication, views,
 * unit conversion) is not part of this model: adding appends.
 */
module Topologies {
  import opened Wrappers
  import opened Units
  import opened AtomTypes

  datatype Molecule = Molecule(name: string, number: int)

  /**
   * A site. `id` stands for the object's identity: two sites are the same
   * object exactly when they are equal, which a unique `id` guarantees.
   */
  datatype Site = Site(
    id: nat,
    atomType: Option<AtomType>,
    charge: Quantity,
    position: seq<Quantity>,
    molecule: Option<Molecule>)

  datatype ConnKind = Bond | Angle | Dihedral | Improper

  /** The number of members a connection of each kind has (`n_sites` of the reader). */
  function Arity(k: ConnKind): (n: nat)
    ensures 2 <= n <= 4
  {
    match k
    case Bond => 2
    case Angle => 3
    case Dihedral => 4
    case Improper => 4
  }

  /** The name the codec passes around: "bond", "angle", "dihedral", "improper". */
  function KindName(k: ConnKind): string
  {
    match k
    case Bond => "bond"
    case Angle => "angle"
    case Dihedral => "dihedral"
    case Improper => "improper"
  }

  /** The class name, which is also `KindName(k).capitalize()`. */
  function ClassName(k: ConnKind): string
  {
    match k
    case Bond => "Bond"
    case Angle => "Angle"
    case Dihedral => "Dihedral"
    case Improper => "Improper"
  }

  /**
   * A connection type. `template` names the potential template its
   * expression and independent variables are taken from. An empty
   * `memberTypes` or `memberClasses` stands for both `None` and the empty
   * tuple, which the source treats alike.
   */
  datatype ConnType = ConnType(
    name: string,
    template: string,
    parameters: seq<Param>,
    memberTypes: seq<string>,
    memberClasses: seq<string>)

  datatype Connection = Connection(
    kind: ConnKind,
    name: string,
    members: seq<Site>,
    connectionType: Option<ConnType>)

  /** No site appears twice (`len(set(members)) == len(members)`). */
  predicate Distinct(s: seq<Site>)
  {
    forall i, j :: 0 <= i < j < |s| ==> s[i] != s[j]
  }

  /** The connections of one kind, in the order they were added. */
  function OfKind(cs: seq<Connection>, k: ConnKind): (r: seq<Connection>)
    ensures |r| <= |cs|
    ensures forall c :: c in r <==> c in cs && c.kind == k
  {
    if cs == [] then []
    else if cs[0].kind == k then [cs[0]] + OfKind(cs[1..], k)
    else OfKind(cs[1..], k)
  }

  /** `a` can be obtained from `b` by deleting elements: same elements, same relative order. */
  predicate Subsequence(a: seq<Connection>, b: seq<Connection>)
    decreases |b|
  {
    a == [] || (b != [] && (if a[0] == b[0] then Subsequence(a[1..], b[1..]) else Subsequence(a, b[1..])))
  }

  /**
   * The filter keeps every connection of the kind as often as it occurs
   * and no other, without reordering.
   */
  lemma {:induction false} OfKindExact(cs: seq<Connection>, k: ConnKind)
    ensures Subsequence(OfKind(cs, k), cs)
    ensures forall c :: multiset(OfKind(cs, k))[c] == if c.kind == k then multiset(cs)[c] else 0
  {
    if cs != [] {
      OfKindExact(cs[1..], k);
      assert cs == [cs[0]] + cs[1..];
      var r := OfKind(cs, k);
      if cs[0].kind == k {
        assert r[0] == cs[0] && r[1..] == OfKind(cs[1..], k);
      } else if r != [] {
        assert r[0] in OfKind(cs, k);
      }
    }
  }

  class Topology {
    var sites: seq<Site>
    var connections: seq<Connection>

    constructor()
      ensures sites == [] && connections == []
    {
      sites := [];
      connections := [];
    }

    method AddSite(s: Site)
      modifies this`sites
      ensures sites == old(sites) + [s]
    {
      sites := sites + [s];
    }

    method AddConnection(c: Connection)
      modifies this`connections
      ensures connections == old(connections) + [c]
    {
      connections := connections + [c];
    }
  }
}

/**
 * The dihedral connection (gmso/core/dihedral.py): exactly four members,
 * a member order that counts the same as its reverse, and a
 * `connection_type` attribute that is an alias of `dihedral_type`.
 */
module Dihedrals {
  import opened Wrappers
  import opened Topologies
  import opened Connections

  /** `tuple(reversed(members))`. */
  function Reverse<T>(s: seq<T>): (r: seq<T>)
    ensures |r| == |s|
    ensures forall i :: 0 <= i < |s| ==> r[i] == s[|s| - 1 - i]
  {
    if s == [] then [] else Reverse(s[1..]) + [s[0]]
  }

  lemma {:induction false} ReverseInvolution<T>(s: seq<T>)
    ensures Reverse(Reverse(s)) == s
  {
    var r := Reverse(Reverse(s));
    assert |r| == |s|;
    forall i | 0 <= i < |s| ensures r[i] == s[i] {
      assert Reverse(s)[|s| - 1 - i] == s[i];
    }
  }

  /** `equivalent_members`: the member order and its reverse. */
  function EquivalentMembers(members: seq<Site>): (r: set<seq<Site>>)
    ensures members in r && Reverse(members) in r
    ensures forall m :: m in r ==> m == members || m == Reverse(members)
  {
    {members, Reverse(members)}
  }

  /** Reversing the members does not change the equivalent orders. */
  lemma EquivalentMembersReversed(members: seq<Site>)
    ensures EquivalentMembers(Reverse(members)) == EquivalentMembers(members)
  {
    ReverseInvolution(members);
  }

  /** A dihedral's four distinct members have exactly two equivalent orders. */
  lemma EquivalentMembersCount(members: seq<Site>)
    requires |members| == 4 && Distinct(members)
    ensures |EquivalentMembers(members)| == 2
  {
    assert Reverse(members)[0] == members[3] != members[0];
  }

  /**
   * Constructing a dihedral: the member checks of every connection, then
   * the four-tuple field.
   */
  function ValidateDihedral(members: Option<seq<MemberArg>>, creator: map<string, string> -> Option<Site>): (r: Result<seq<Site>, ConnError>)
    ensures r.Ok? ==> |r.value| == 4 && Distinct(r.value)
    ensures r.Ok? <==> CheckMembers(members, creator).Ok? && |CheckMembers(members, creator).value| == 4
  {
    var sites :- CheckMembers(members, creator);
    if |sites| != 4 then Err(ValidationError("a dihedral has 4 members")) else Ok(sites)
  }

  /** A value stored in one of the dihedral's attributes. */
  datatype AttrValue = NoValue | TypeValue(ctype: ConnType) | OtherValue(text: string)

  /** The attribute an assignment to `key` actually sets. */
  function AttrTarget(key: string): (t: string)
    ensures key == "connection_type" ==> t == "dihedral_type"
    ensures key != "connection_type" ==> t == key
  {
    if key == "connection_type" then "dihedral_type" else key
  }

  class Dihedral {
    const members: seq<Site>
    var attrs: map<string, AttrValue>

    constructor(members: seq<Site>, dihedralType: Option<ConnType>)
      requires |members| == 4 && Distinct(members)
      ensures this.members == members
      ensures attrs == map["dihedral_type" := if dihedralType.Some? then TypeValue(dihedralType.value) else NoValue]
    {
      this.members := members;
      attrs := map["dihedral_type" := if dihedralType.Some? then TypeValue(dihedralType.value) else NoValue];
    }

    /** `dihedral_type`: the stored type, or nothing. */
    function DihedralType(): AttrValue
      reads this
    {
      if "dihedral_type" in attrs then attrs["dihedral_type"] else NoValue
    }

    /** `connection_type` reads the same stored value as `dihedral_type`. */
    function ConnectionType(): (r: AttrValue)
      reads this
      ensures r == DihedralType()
    {
      if "dihedral_type" in attrs then attrs["dihedral_type"] else NoValue
    }

    /**
     * `__setattr__`: assigning `connection_type` sets `dihedral_type`;
     * any other key sets that key; nothing else changes.
     */
    method SetAttr(key: string, value: AttrValue)
      modifies this`attrs
      ensures attrs == old(attrs)[AttrTarget(key) := value]
      ensures key == "connection_type" ==> DihedralType() == value && ConnectionType() == value
    {
      if key == "connection_type" {
        attrs := attrs["dihedral_type" := value];
      } else {
        attrs := attrs[key := value];
      }
    }
  }
}

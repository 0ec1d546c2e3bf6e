/**
 * The rules every connection obeys (gmso/abc/abstract_connection.py):
 * members are distinct sites, a missing name becomes the class name, and
 * `member_types` / `member_classes` fall back from the connection type to
 * the members' atom types.
 */
module Connections {
  import opened Wrappers
  import opened AtomTypes
  import opened Topologies
  import opened Ordering

  /** What a caller may pass as a member: a site, a field dictionary, or anything else. */
  datatype MemberArg = SiteArg(site: Site) | DictArg(fields: map<string, string>) | OtherArg(typeName: string)

  datatype ConnError =
    | TypeError(reason: string)
    | GMSOError(reason: string)
    | ValidationError(reason: string)

  predicate AllDicts(ms: seq<MemberArg>)
  {
    forall i :: 0 <= i < |ms| ==> ms[i].DictArg?
  }

  predicate AllSites(ms: seq<MemberArg>)
  {
    forall i :: 0 <= i < |ms| ==> ms[i].SiteArg?
  }

  function SitesOf(ms: seq<MemberArg>): (r: seq<Site>)
    requires AllSites(ms)
    ensures |r| == |ms| && forall i :: 0 <= i < |ms| ==> r[i] == ms[i].site
  {
    if ms == [] then [] else [ms[0].site] + SitesOf(ms[1..])
  }

  /**
   * `[creator(x) for x in members]`: each dictionary is parsed into a site
   * (`__members_creator__`, which is not part of this model); the first one
   * it cannot parse raises.
   */
  function Create(ms: seq<MemberArg>, creator: map<string, string> -> Option<Site>): (r: Result<seq<MemberArg>, ConnError>)
    requires AllDicts(ms)
    ensures r.Ok? <==> forall i :: 0 <= i < |ms| ==> creator(ms[i].fields).Some?
    ensures r.Ok? ==> |r.value| == |ms| && forall i :: 0 <= i < |ms| ==> r.value[i] == SiteArg(creator(ms[i].fields).value)
  {
    if ms == [] then Ok([])
    else match creator(ms[0].fields)
      case None => Err(ValidationError("member"))
      case Some(s) =>
        match Create(ms[1..], creator)
        case Err(e) => Err(e)
        case Ok(rest) => Ok([SiteArg(s)] + rest)
  }

  /**
   * The member checks of `validate_fields`: `None` is not iterable; a list
   * made only of dictionaries is parsed first; then every member must be a
   * site, and no site may appear twice.
   */
  function CheckMembers(members: Option<seq<MemberArg>>, creator: map<string, string> -> Option<Site>): (r: Result<seq<Site>, ConnError>)
    ensures members.None? ==> r.Err? && r.error.TypeError?
    ensures members.Some? && !AllDicts(members.value) ==>
      (r.Ok? <==> AllSites(members.value) && Distinct(SitesOf(members.value)))
    ensures members.Some? && !AllDicts(members.value) && r.Ok? ==> r.value == SitesOf(members.value)
    ensures members.Some? && !AllSites(members.value) && !AllDicts(members.value) ==> r == Err(TypeError("non-site member"))
    ensures members.Some? && AllSites(members.value) && !Distinct(SitesOf(members.value)) ==> r.Err? && r.error.GMSOError?
    ensures members.Some? && AllDicts(members.value) && Create(members.value, creator).Err? ==>
      r == Err(Create(members.value, creator).error)
    ensures members.Some? && AllDicts(members.value) && Create(members.value, creator).Ok? ==>
      AllSites(Create(members.value, creator).value) &&
      (r.Ok? <==> Distinct(SitesOf(Create(members.value, creator).value)))
    ensures members.Some? && AllDicts(members.value) && Create(members.value, creator).Ok? && r.Ok? ==>
      r.value == SitesOf(Create(members.value, creator).value)
    ensures members.Some? && AllDicts(members.value) && Create(members.value, creator).Ok? && r.Err? ==>
      r.error.GMSOError?
    ensures r.Ok? ==> Distinct(r.value) && members.Some? && |r.value| == |members.value|
  {
    match members
    case None => Err(TypeError("members is None"))
    case Some(ms) =>
      var given :- if AllDicts(ms) then Create(ms, creator) else Ok(ms);
      if !AllSites(given) then Err(TypeError("non-site member"))
      else if !Distinct(SitesOf(given)) then Err(GMSOError("connection between the same sites"))
      else Ok(SitesOf(given))
  }

  /** Validated members pass the checks again unchanged. */
  lemma CheckMembersIdempotent(members: Option<seq<MemberArg>>, creator: map<string, string> -> Option<Site>)
    requires CheckMembers(members, creator).Ok?
    ensures CheckMembers(Some(Map((s: Site) => SiteArg(s), CheckMembers(members, creator).value)), creator)
            == CheckMembers(members, creator)
  {
    var sites := CheckMembers(members, creator).value;
    var args := Map((s: Site) => SiteArg(s), sites);
    if sites == [] {
      assert args == [];
    } else {
      assert !AllDicts(args) by { assert !args[0].DictArg?; }
      assert SitesOf(args) == sites;
    }
  }

  /** The name after validation: a missing or empty name becomes the class name. */
  function DefaultName(name: Option<string>, className: string): (r: string)
    ensures name.Some? && name.value != "" ==> r == name.value
    ensures name.None? || name.value == "" ==> r == className
  {
    if name.None? || name.value == "" then className else name.value
  }

  /** The `values` dictionary a pydantic root validator receives and may update. */
  class ConnectionValues {
    var name: Option<string>
    var members: Option<seq<MemberArg>>

    constructor(name: Option<string>, members: Option<seq<MemberArg>>)
      ensures this.name == name && this.members == members
    {
      this.name := name;
      this.members := members;
    }

    /**
     * `validate_fields`: runs the member checks and, when they pass,
     * writes the default name into the dictionary. The members entry is
     * left as given: the parsed sites are only used for the checks.
     */
    method ValidateFields(className: string, creator: map<string, string> -> Option<Site>) returns (r: Result<(), ConnError>)
      modifies this`name
      ensures r.Err? <==> CheckMembers(members, creator).Err?
      ensures r.Err? ==> r.error == CheckMembers(members, creator).error && name == old(name)
      ensures r.Ok? ==> name == Some(DefaultName(old(name), className))
    {
      var checked := CheckMembers(members, creator);
      if checked.Err? {
        return Err(checked.error);
      }
      if name.None? || name.value == "" {
        name := Some(className);
      }
      r := Ok(());
    }
  }

  /**
   * Building a connection of kind `k` from sites: the members must pass
   * the checks, and the class's tuple field then requires exactly
   * `Arity(k)` of them.
   */
  function NewConnection(k: ConnKind, name: Option<string>, members: seq<Site>, ctype: Option<ConnType>): (r: Result<Connection, ConnError>)
    ensures r.Ok? <==> Distinct(members) && |members| == Arity(k)
    ensures r.Ok? ==> r.value == Connection(k, DefaultName(name, ClassName(k)), members, ctype)
  {
    var args := Map((s: Site) => SiteArg(s), members);
    assert members != [] ==> !AllDicts(args) by {
      if members != [] { assert !args[0].DictArg?; }
    }
    assert AllSites(args) && SitesOf(args) == members;
    var sites :- CheckMembers(Some(args), (f: map<string, string>) => None);
    if |sites| != Arity(k) then Err(ValidationError("wrong number of members"))
    else Ok(Connection(k, DefaultName(name, ClassName(k)), sites, ctype))
  }

  /** `_has_typed_members`: every member has an atom type. */
  predicate HasTypedMembers(members: seq<Site>)
  {
    forall i :: 0 <= i < |members| ==> members[i].atomType.Some?
  }

  datatype Which = MemberTypes | MemberClasses

  /** Python's `all(names)` on strings: none is empty. */
  predicate AllNonEmpty(names: seq<string>)
  {
    forall i :: 0 <= i < |names| ==> names[i] != ""
  }

  /** The atom-type names (or classes) of typed members, in member order. */
  function MemberNames(which: Which, members: seq<Site>): (r: seq<string>)
    requires HasTypedMembers(members)
    ensures |r| == |members|
    ensures forall i :: 0 <= i < |members| ==>
      r[i] == (if which == MemberTypes then members[i].atomType.value.name else members[i].atomType.value.atomclass)
  {
    if members == [] then []
    else
      var t := members[0].atomType.value;
      [if which == MemberTypes then t.name else t.atomclass] + MemberNames(which, members[1..])
  }

  /**
   * `_get_members_types_or_classes`: the connection type's own non-empty
   * list wins; otherwise, when every member is typed, the members' names
   * (or classes) in member order, unless one of them is empty; otherwise
   * nothing.
   */
  function MemberTypesOrClasses(which: Which, ctype: Option<ConnType>, members: seq<Site>): (r: Option<seq<string>>)
    ensures ctype.Some? && (if which == MemberTypes then ctype.value.memberTypes else ctype.value.memberClasses) != [] ==>
      r == Some(if which == MemberTypes then ctype.value.memberTypes else ctype.value.memberClasses)
    ensures (ctype.None? || (if which == MemberTypes then ctype.value.memberTypes else ctype.value.memberClasses) == []) ==>
      (r.Some? <==> HasTypedMembers(members) && AllNonEmpty(MemberNames(which, members)))
    ensures (ctype.None? || (if which == MemberTypes then ctype.value.memberTypes else ctype.value.memberClasses) == []) && r.Some? ==>
      r.value == MemberNames(which, members)
    ensures !HasTypedMembers(members) && r.Some? ==> ctype.Some?
  {
    var attr := if ctype.None? then [] else if which == MemberTypes then ctype.value.memberTypes else ctype.value.memberClasses;
    if attr != [] then Some(attr)
    else if HasTypedMembers(members) then
      var tc := MemberNames(which, members);
      if AllNonEmpty(tc) then Some(tc) else None
    else None
  }
}

# gmso LAMMPS data codec, modelled in Dafny

This project models the LAMMPS data-file reader and writer of gmso
(`gmso/formats/lammpsdata.py`) together with the entities they build and
check: the gmso `AtomType` (`gmso/core/atom_type.py`), the older
`AtomType` class of `topology/core/atom_type.py`, the connection checks of
`gmso/abc/abstract_connection.py` and the `Dihedral` of
`gmso/core/dihedral.py`. It proves properties of the model.

A data file is modelled as the list of lines `readlines()` returns for it.
Physical values are (number, unit) pairs. Units are symbolic: a base unit
per dimension, per unit style.

- **Writer** (`LammpsWrite`):
  - Each `_write_*` helper is a method that appends lines to an `OutFile`.
  - Each method is proved against a function that gives the lines the section writes and the exception that stops it, if one does.
  - `write_lammpsdata` checks the options, tries the default potential conversions and fills the lj conversion factors in place (`LammpsConfig.FactorDict`). It then writes the header, the box, the type tables, the atoms and the connections.
- **Reader** (`LammpsRead`, `LammpsScan`):
  - Each `_get_*` helper is a method: the line scan with its `break`, the row loops, the in-place pair loop over the atom types, and `add_site`/`add_connection` on a `Topology` object.
  - Each method is proved against a decoding function. Lemmas about those functions state what a row must look like to be read, and what it is read as.
- **Round trip** (`LammpsRoundTrip`):
  - For every line kind, the reader's view of a line the writer produced: the header counts, Masses, Pair Coeffs, the four coefficient tables, Atoms and the four connection sections.
  - The slice the reader takes after a section header is exactly the written rows.
  - The 1-based indices the writer computes are undone by the reader's `- 1`.
  - The type number in a connection row names the coefficient row of its type.

Code this model does not include is passed to the writer as parameters (`LammpsWrite.Hooks`):
- `num`: `convert_parameter` followed by Python's formatting of the number it returns (the `{:7}`/`.8` widths included). `LammpsWrite.WriteLammpsData` takes the conversion as a parameter `convert` and builds `num` from it and the factors it resolved (`LammpsWrite.FileHooks`).
- `paramLabel`: `write_out_parameter_and_units`.
- `unitText`: the text of a unit.
- `memberKey`: `sort_by_types`.
- `title`: the first header line (user name, topology name and clock).

The round-trip lemmas assume of `num` only what `LammpsRoundTrip.Readable` states. Each formatted number must:
- be one whitespace-free token;
- contain no `#`;
- be readable by `float()`.

`LammpsRoundTrip.ReadBack` is the value `float()` reads from it.

## Model

| member | source | states |
|---|---|---|
| AtomTypes.DefaultPotential | gmso/core/atom_type.py:218-227 | the default potential is 12-6 Lennard-Jones over the variable r, with exactly the parameters sigma (0.3 nm) and epsilon (0.3 kJ) |
| AtomTypes.ValidateMass | gmso/core/atom_type.py:193-203 | accepted exactly when the argument is a bare number or has the dimension of g/mol; a bare number becomes that number in g/mol with a warning; a quantity comes back unchanged; the result always has the dimension of g/mol |
| AtomTypes.ValidateCharge | gmso/core/atom_type.py:205-216 | the same for charge: a bare number becomes elementary charge with a warning, a quantity must already be a charge, and the result is always a charge |
| AtomTypes.ValidatorsIdempotent | gmso/core/atom_type.py:193-216 | validating an already validated mass or charge again returns it unchanged and does not warn |
| AtomTypes.NewAtomType | gmso/core/atom_type.py:65-98 | construction succeeds exactly when mass and charge validate (the mass error comes first); the result is well formed, stores the validated mass and charge and every other argument, uses the Lennard-Jones default when no potential is given, and turns `overrides=None` into the empty set |
| AtomTypes.DefaultAtomType | gmso/core/atom_type.py:65-82 | an atom type built with every default is named "AtomType", has 0 g/mol, 0 e, the default potential, empty strings and no overrides |
| AtomTypes.Clone | gmso/core/atom_type.py:135-153 | cloning a well-formed atom type gives back an atom type with the same value in every field |
| AtomTypes.Equals | gmso/core/atom_type.py:155-175 | the object itself is equal; a non-atom-type never is; two atom types are equal exactly when name, expression, independent variables, parameter keys and values, charge, atomclass, mass, doi, overrides, definition and description all agree |
| AtomTypes.EqualsSymmetric | gmso/core/atom_type.py:155-175 | equality between two atom types does not depend on which one is asked |
| AtomTypes.CloneIsEqual | gmso/core/atom_type.py:135-175 | a clone of a well-formed atom type exists and is equal to the original, asked either way round |
| AtomTypes.IndexOfEqual | gmso/formats/lammpsdata.py:963 | `list.index` of an atom type: the first position holding a type equal (`__eq__`, tags ignored) to it; none exactly when no type in the list is equal to it; found whenever the type itself is in the list |
| AtomTypes.IndexOfEqualDistinct | gmso/formats/lammpsdata.py:742 | in a list of atom types in which no two are equal, the type at position i is found at i |
| AtomTypes.ParamValue | gmso/formats/lammpsdata.py:775 | a lookup finds a value exactly when the key is a parameter, and the value is the one stored under it |
| AtomTypes.SetParam | gmso/formats/lammpsdata.py:561-566 | storing a parameter adds its key, makes the key hold the new value and leaves every other key's value alone |
| LegacyAtomTypes.ValidateCharge | topology/core/atom_type.py:99-109 | a bare number becomes elementary charge; a quantity of another dimension keeps its number and gets the unit e; a charge comes back unchanged; the first two cases warn |
| LegacyAtomTypes.ValidateMass | topology/core/atom_type.py:112-122 | the same three cases with g/mol |
| LegacyAtomTypes.ValidatorsNormalise | topology/core/atom_type.py:99-122 | both validators always give their target dimension, keep the numeric value, and are idempotent without a warning |
| LegacyAtomTypes.AtomType.constructor | topology/core/atom_type.py:41-57 | the new atom type keeps name, expression, parameters and variables, stores the validated mass and charge, and so satisfies the dimension invariant |
| LegacyAtomTypes.AtomType.SetCharge | topology/core/atom_type.py:65-67 | the setter stores the validated charge, changes no other field, and keeps the dimension invariant |
| LegacyAtomTypes.AtomType.SetMass | topology/core/atom_type.py:73-75 | the setter stores the validated mass, changes no other field, and keeps the dimension invariant |
| LegacyAtomTypes.AtomType.Equals | topology/core/atom_type.py:77-93 | two atom types are equal exactly when name, mass, charge, expression, independent variables in order, and parameter names and values in order all agree |
| LegacyAtomTypes.EqualsEquivalence | topology/core/atom_type.py:77-93 | this equality is reflexive, symmetric and transitive |
| Connections.Create | gmso/abc/abstract_connection.py:75-78 | a list made only of dictionaries is parsed member by member; it succeeds exactly when every dictionary parses, and then yields the parsed sites in order |
| Connections.CheckMembers | gmso/abc/abstract_connection.py:72-90 | no member list raises TypeError; a list of dictionaries is first parsed with `Create`, whose error is passed through, and otherwise gives the parsed sites, accepted exactly when they are distinct and rejected with GMSOError when one repeats; any other list with a non-site member raises TypeError; a list of sites is accepted exactly when no site repeats (GMSOError otherwise) and is returned as given; an accepted list is distinct and as long as the argument |
| Connections.CheckMembersIdempotent | gmso/abc/abstract_connection.py:72-90 | members that passed the checks pass them again unchanged |
| Connections.DefaultName | gmso/abc/abstract_connection.py:92-93 | a missing or empty name becomes the class name; a non-empty name is kept |
| Connections.ConnectionValues.constructor | gmso/abc/abstract_connection.py:72-73 | the values dictionary holds the given name and members |
| Connections.ConnectionValues.ValidateFields | gmso/abc/abstract_connection.py:71-94 | fails exactly when the member checks fail, with their error and the name untouched; otherwise writes the defaulted name into the dictionary and changes nothing else |
| Connections.NewConnection | gmso/abc/abstract_connection.py:72-93 | a connection of a kind is built exactly when its sites are distinct and as many as the kind's arity (2, 3, 4, 4), and gets the defaulted name |
| Connections.MemberNames | gmso/abc/abstract_connection.py:63-68 | the atom-type names (or classes) of typed members, one per member, in member order |
| Connections.MemberTypesOrClasses | gmso/abc/abstract_connection.py:54-69 | a non-empty list on the connection type wins; otherwise the result is the members' names exactly when every member is typed and no name is empty, and nothing otherwise |
| Dihedrals.Reverse | gmso/core/dihedral.py:81-83 | the reversed member tuple: same length, position i holds the member at n-1-i |
| Dihedrals.ReverseInvolution | gmso/core/dihedral.py:81-83 | reversing twice gives the members back |
| Dihedrals.EquivalentMembers | gmso/core/dihedral.py:65-83 | the equivalent orders are exactly the member order and its reverse |
| Dihedrals.EquivalentMembersReversed | gmso/core/dihedral.py:81-83 | a dihedral with reversed members has the same equivalent orders |
| Dihedrals.EquivalentMembersCount | gmso/core/dihedral.py:33-35 | four distinct members have exactly two equivalent orders |
| Dihedrals.ValidateDihedral | gmso/core/dihedral.py:33-35 | a dihedral is built exactly when the connection checks pass and there are four members; the members are then four distinct sites |
| Dihedrals.AttrTarget | gmso/core/dihedral.py:85-89 | an assignment to connection_type goes to dihedral_type; any other key goes to itself |
| Dihedrals.Dihedral.constructor | gmso/core/dihedral.py:33-39 | a dihedral keeps its four distinct members and stores its type, or none, as dihedral_type |
| Dihedrals.Dihedral.ConnectionType | gmso/core/dihedral.py:51-58 | connection_type reads the same stored value as dihedral_type |
| Dihedrals.Dihedral.SetAttr | gmso/core/dihedral.py:85-89 | the new attributes are the old ones with the target key set; after assigning connection_type, both dihedral_type and connection_type read the new value |
| Topologies.Arity | gmso/formats/lammpsdata.py:406-412 | a connection row names 2, 3, 4 and 4 sites for bonds, angles, dihedrals and impropers |
| Topologies.OfKind | gmso/formats/lammpsdata.py:187-190 | the connections of one kind are among the topology's connections, and every connection of that kind is among them |
| Topologies.OfKindExact | gmso/formats/lammpsdata.py:187-190 | the connections of one kind are a subsequence of the topology's connections (their order kept) and hold each connection of that kind as many times as the topology does, and no other |
| Topologies.Topology.constructor | gmso/formats/lammpsdata.py:235 | a new topology has no sites and no connections |
| Topologies.Topology.AddSite | gmso/formats/lammpsdata.py:471 | adding a site appends it and leaves the connections alone |
| Topologies.Topology.AddConnection | gmso/formats/lammpsdata.py:439 | adding a connection appends it and leaves the sites alone |
| Units.ParseUnitStyle | gmso/formats/lammpsdata.py:107-121 | a unit style is accepted exactly when it is one of the eight names, and names the style it was parsed from |
| Units.ParseStyleName | gmso/formats/lammpsdata.py:107-121 | every style's name parses back to that style |
| Units.GetUnits | gmso/formats/lammpsdata.py:282-295 | under lj, angle is radian and every other dimension is dimensionless; otherwise angle_eq is degree and every other dimension is the style's base unit, with that dimension |
| Units.GetUnitsDimension | gmso/formats/lammpsdata.py:282-295 | the unit has the dimension asked for, except that under lj only angles keep one |
| LammpsConfig.ParseAtomStyle | gmso/formats/lammpsdata.py:100-105 | an atom style is accepted exactly when it is full, atomic, molecular or charge, and names the style it was parsed from |
| LammpsConfig.CheckWriteOptions | gmso/formats/lammpsdata.py:100-125 | the writer fails with ValueError on a bad atom style, then on a bad unit style, then on conversion factors with a style other than lj, and accepts exactly the remaining combinations |
| LammpsConfig.CheckReadOptions | gmso/formats/lammpsdata.py:237-260 | the reader accepts exactly atom style full with one of the eight unit styles; anything else is a ValueError |
| LammpsConfig.TryDefaultConversions | gmso/formats/lammpsdata.py:1026-1036 | succeeds exactly when every kind that has connections has types; otherwise raises AttributeError for a kind with connections and no types, the first such kind in the table order impropers, dihedrals, angles, bonds |
| LammpsConfig.MaxOf | gmso/formats/lammpsdata.py:1043-1052 | Python's max: an element of the list that no element exceeds |
| LammpsConfig.FactorSource | gmso/formats/lammpsdata.py:1041-1052 | length is taken from sigma, energy from epsilon, mass from the mass and charge from the charge |
| LammpsConfig.Sources | gmso/formats/lammpsdata.py:1043-1052 | the values of all atom types, in order; an atom type without the parameter raises KeyError |
| LammpsConfig.DefaultLjVal | gmso/formats/lammpsdata.py:1039-1056 | an unknown source raises ValueError and an empty list raises; a result is the value of one of the atom types and at least the value of every atom type; it exists whenever every atom type has the value |
| LammpsConfig.FactorDict.constructor | gmso/formats/lammpsdata.py:150-152 | the dictionary holds the given keys, in order, each once |
| LammpsConfig.FactorDict.ResolveFactors | gmso/formats/lammpsdata.py:150-164 | the in-place loop ends as the factor specification says, raising its error; whether it finishes or raises, the dictionary is left as `Resolved` says, with the defaults filled in before any error still in place; it keeps every value the dictionary held, and keeps the key order consistent with the keys |
| LammpsConfig.ResolveRejectsUnknown | gmso/formats/lammpsdata.py:154-158 | a key other than length, energy, mass and charge makes the loop raise |
| LammpsConfig.FillRejectsUnknown | gmso/formats/lammpsdata.py:154-158 | any visited key other than the four makes the remaining loop raise |
| LammpsConfig.FillResult | gmso/formats/lammpsdata.py:154-164 | the loop keeps every value already present (a falsy value included), makes every visited key present, and gives each added key the default from the atom types |
| LammpsConfig.FillIsFilled | gmso/formats/lammpsdata.py:154-164 | a loop that runs to the end leaves exactly the dictionary it returns, so `Filled` and the factor specification agree on success |
| LammpsConfig.FilledKeeps | gmso/formats/lammpsdata.py:154-164 | whether the loop finishes or raises, the dictionary it leaves keeps every value it held, and every key it added is a visited key holding that key's default over the atom types |
| LammpsConfig.ResolveResult | gmso/formats/lammpsdata.py:150-164 | after the loop all four factors are present, given factors are unchanged, and every defaulted factor is at least the matching value of every atom type |
| LammpsScan.ScanSection | gmso/formats/lammpsdata.py:532-539 | the line loop of every reader helper returns what the scan specification says for the same lines |
| LammpsScan.ScanLoop | gmso/formats/lammpsdata.py:303-308 | the loop with its `break` and its remembered count computes the scan specification |
| LammpsScan.ScanStops | gmso/formats/lammpsdata.py:446-451 | a scan that succeeds stops at the first stop line, or is left at the last line when there is none |
| LammpsScan.ScanCount | gmso/formats/lammpsdata.py:534-537 | the count a scan returns is the one on the last count line up to where it stopped, or none when there is no such line |
| LammpsScan.ScanReaches | gmso/formats/lammpsdata.py:396-401 | when every count line before a header parses and nothing stops earlier, the scan stops at the header |
| LammpsScan.ScanFindsHeader | gmso/formats/lammpsdata.py:446-452 | with a header line and a last count line before it saying n, the scan stops at the header with count n |
| LammpsScan.ScanFindsNoCount | gmso/formats/lammpsdata.py:302-310 | without a count line before the header, the scan finds no count (the helper then returns the topology unchanged) |
| LammpsRead.FieldText | gmso/formats/lammpsdata.py:546 | a field is read exactly when the row has it; a missing field is an IndexError |
| LammpsRead.FieldInt | gmso/formats/lammpsdata.py:536 | `int()` of a field: an IndexError past the last field, a ValueError when it is no integer, else its value |
| LammpsRead.FieldReal | gmso/formats/lammpsdata.py:547 | `float()` of a field: an IndexError past the last field, a ValueError when it is no number, else its value |
| LammpsRead.Ref | gmso/formats/lammpsdata.py:465 | a 1-based reference reads element n-1 with Python's indexing, so 0 and negative numbers wrap around; out of range is an IndexError |
| LammpsRead.DecodeEach | gmso/formats/lammpsdata.py:544-549 | the rows decode exactly when each one does, to one value per row in order; otherwise the error is that of the first row that fails |
| LammpsRead.DecodeEachFirstError | gmso/formats/lammpsdata.py:544-549 | when row i is the first that fails, decoding the section raises row i's error |
| LammpsRead.DecodeRows | gmso/formats/lammpsdata.py:543-549 | the append loop computes the decoding specification |
| LammpsRead.DecodeMassRow | gmso/formats/lammpsdata.py:544-548 | a Masses row gives an atom type exactly when it has a numeric second field and the style is not lj; the type is named by the first field, has that mass in the style's mass unit and every other default (an lj mass is dimensionless, which the mass validator refuses) |
| LammpsRead.StripComment | gmso/formats/lammpsdata.py:559-560 | the text before the first `#`: a prefix of the line with no `#`, cut exactly at the first `#` |
| LammpsRead.ApplyLj | gmso/formats/lammpsdata.py:560-566 | a three-field pair row sets sigma from the third field in the length unit and epsilon from the second in the energy unit, and changes nothing else of the atom type |
| LammpsRead.ApplyLjKeepsOthers | gmso/formats/lammpsdata.py:561-566 | the pair row adds sigma and epsilon to the parameter keys and leaves every other parameter's value alone |
| LammpsRead.ApplyPairsResult | gmso/formats/lammpsdata.py:559-569 | the pair loop succeeds exactly when every three-field row has an atom type at its position and reads; then only those atom types change, each from its own row, and the warning is raised exactly when some row has four fields |
| LammpsRead.GetFfInformation | gmso/formats/lammpsdata.py:530-576 | the imperative reader of the Masses and Pair Coeffs sections computes the force-field specification, which reads pair fields with the comment removed |
| LammpsRead.ApplyPairRows | gmso/formats/lammpsdata.py:557-569 | the in-place pair loop computes the pair-loop specification |
| LammpsRead.DecodeAtomRow | gmso/formats/lammpsdata.py:453-467 | a full-style Atoms row gives a site exactly when it has at least seven fields, charge and coordinates are numbers, the type field is an integer naming an atom type (1-based, Python indexing) and the molecule field is an integer; the site has that atom type, charge and position in the style's units, and a molecule named and numbered by the second field |
| LammpsRead.GetAtoms | gmso/formats/lammpsdata.py:444-473 | the Atoms section is read exactly when its specification is; then the new sites are appended in row order, and on an error the error is the specification's |
| LammpsRead.AddSites | gmso/formats/lammpsdata.py:453-471 | the site loop appends one site per row in order, or raises the first row's error |
| LammpsRead.CoeffParams | gmso/formats/lammpsdata.py:316-392 | bond and angle rows give k, doubled, in energy per squared length or angle, then r_eq or theta_eq; dihedral rows give k1 to k4 in energy; each kind reads exactly as many numeric fields as it needs. Impropers are read in the corrected layout (see Findings) |
| LammpsRead.ImproperParamsAsWritten | gmso/formats/lammpsdata.py:374-383 | the improper row as the source reads it: it reads exactly when the third and fourth fields are numbers, giving k as twice the third in energy per energy squared and phi_eq as the fourth; a row with fewer than three fields is an IndexError |
| LammpsRead.DecodeCoeffRow | gmso/formats/lammpsdata.py:316-394 | a coefficient row gives a type exactly when its parameters read, built from the kind's template with those parameters and no member types |
| LammpsRead.MemberRefs | gmso/formats/lammpsdata.py:413-416 | the member references are read exactly when fields 2 onwards each name a site (1-based, Python indexing), and member j is the site named by field j+2 |
| LammpsRead.DecodeConnRow | gmso/formats/lammpsdata.py:412-438 | a connection row gives a connection exactly when its members resolve, field 1 names a type (1-based), the members are typed and distinct; the connection has the class name, those members, and a copy of that type whose member types are the members' atom-type names in order |
| LammpsRead.TypedConnection | gmso/formats/lammpsdata.py:418-438 | the connection is built exactly when its members are typed and distinct; it has the kind's class name, the members, and a copy of the type whose member types are the members' atom-type names in order |
| LammpsRead.ConnRowsShape | gmso/formats/lammpsdata.py:406-438 | every connection decoded has the requested kind, as many members as the kind's arity, distinct members and a type |
| LammpsRead.ConnectionSectionShape | gmso/formats/lammpsdata.py:298-441 | the same for a whole connection section |
| LammpsRead.GetConnection | gmso/formats/lammpsdata.py:298-441 | a connection section is read exactly when its specification is: no type count means nothing is added; otherwise the connections are appended in row order |
| LammpsRead.AddConnections | gmso/formats/lammpsdata.py:412-439 | the connection loop appends one connection per row in order, or raises the first row's error |
| LammpsRead.ReadConnectionsErrorKept | gmso/formats/lammpsdata.py:271-274 | once a connection section has raised, reading further sections gives that same error |
| LammpsRead.ReadConnectionsInOrder | gmso/formats/lammpsdata.py:271-274 | the reader's connections are the bonds, then angles, then dihedrals, then impropers, each as its section reads them; otherwise the error of the first of those sections that raises |
| LammpsRead.GetConnections | gmso/formats/lammpsdata.py:271-274 | the four `_get_connection` calls succeed exactly when the sections read in order do; the topology's connections are then exactly those sections' connections in that order; the error is the first section's error; every connection has its kind's arity and distinct members |
| LammpsRead.ReadResultStages | gmso/formats/lammpsdata.py:194-279 | a read fails with the option error, else the force-field error (with the corrected pair and improper readers), else the Atoms error, else the first connection section error; when none raises, it gives the Atoms sites and the bonds, angles, dihedrals and impropers joined in that order |
| LammpsRead.ReadLammpsData | gmso/formats/lammpsdata.py:194-279 | the read succeeds exactly when every stage does (`ReadResult`, spelled out by `ReadResultStages`); a topology that is read is new and holds exactly the sites of the Atoms section and the connections of the four sections in reading order; a failed read reports the first stage's error; every connection read has its kind's arity and distinct members. The force field comes from `FfInformation`, which uses the corrected pair and improper readers (see Findings) |
| LammpsWrite.OutFile.Write | gmso/formats/lammpsdata.py:171 | a write appends its lines to the file and keeps everything written before |
| LammpsWrite.Emit | gmso/formats/lammpsdata.py:739-746 | a row loop writes every row exactly when no row raises, one line per item in order; when a row raises, the rows before it stay written and the error is that row's |
| LammpsWrite.EmitRows | gmso/formats/lammpsdata.py:769-781 | the imperative row loop leaves exactly the lines and the outcome of the row-loop specification |
| LammpsWrite.ParamsOf | gmso/formats/lammpsdata.py:773-778 | looking up the parameters by key succeeds exactly when every key is present, giving the values in key order; otherwise it raises KeyError for a missing key |
| LammpsWrite.Nums | gmso/formats/lammpsdata.py:773-778 | one formatted number per quantity, in order |
| LammpsWrite.LabelLine | gmso/formats/lammpsdata.py:759-765 | the parameter label line can be written exactly when the test type has every listed parameter |
| LammpsWrite.WriteHeader | gmso/formats/lammpsdata.py:629-670 | the header: the title line and a blank line, the atom count, the four connection counts for full and molecular styles, the atom type count, a type count for each connection kind present in those styles, and a blank line |
| LammpsWrite.WriteBox | gmso/formats/lammpsdata.py:673-731 | an orthogonal box writes three bound lines from 0 to its lengths and a zero tilt line; a triclinic box writes its four bound lines |
| LammpsWrite.WriteAtomTypes | gmso/formats/lammpsdata.py:734-746 | the Masses header and mass unit line, then one row per atom type sorted by name, numbered by the first position in that order of a type equal (`__eq__`) to it |
| LammpsWrite.WritePairTypes | gmso/formats/lammpsdata.py:749-781 | without sites the section raises IndexError and writes nothing; otherwise the header names the first site's expression, a label line follows, and each atom type, sorted by name, gets a row with epsilon and sigma or raises KeyError |
| LammpsWrite.Evens | gmso/formats/lammpsdata.py:838-839 | `s[::2]`: the elements at even positions, in order |
| LammpsWrite.MinOf | gmso/formats/lammpsdata.py:838 | `min` is an element of the list and no element is smaller |
| LammpsWrite.MaxOf | gmso/formats/lammpsdata.py:839 | `max` is an element of the list and no element is larger |
| LammpsWrite.Pick | gmso/formats/lammpsdata.py:984-993 | reordering by an index list whose indices are all in range gives the listed elements in that order |
| LammpsWrite.WriteConnTypes | gmso/formats/lammpsdata.py:784-938 | a coefficient table: no connection of the kind raises IndexError; a first connection without a type has no name; then the header, the labels, and one row per type sorted by the kind's key; a type whose key cannot be formed raises IndexError before any row |
| LammpsWrite.WriteCoeffRows | gmso/formats/lammpsdata.py:919-938 | the rows of a coefficient table, one per type in the order of the kind's sort key and numbered from 1; a type whose key cannot be formed raises IndexError before any row is written |
| LammpsWrite.WriteSiteData | gmso/formats/lammpsdata.py:941-981 | the Atoms header with the style, then the rows of `SiteLine` for the sites in order, up to the first that raises, whose error is the result |
| LammpsWrite.SiteLineErrors | gmso/formats/lammpsdata.py:959-981 | an Atoms row raises, in `format`'s argument order: for a site without a molecule; then for a site whose atom type is missing or equal (`__eq__`, tags ignored) to no type in the table (ValueError); then for fewer than three coordinates (IndexError) |
| LammpsWrite.SiteLineWritten | gmso/formats/lammpsdata.py:959-981 | a written Atoms row holds the site's 1-based index, its molecule number, the 1-based position of the first table type equal (`__eq__`) to its type, its charge and its first three coordinates, in the style's columns |
| LammpsWrite.SiteNumbers | gmso/formats/lammpsdata.py:1017-1022 | the members' 1-based site numbers exist exactly when every member is a site, and each is one past the member's first position |
| LammpsWrite.IntStrings | gmso/formats/lammpsdata.py:1019 | each number written in decimal, in order |
| LammpsWrite.WriteConnData | gmso/formats/lammpsdata.py:1004-1023 | a connection section: the header, and, when every type's tuple can be reordered, one row per connection of the kind in order, each naming its type's position in the sorted tuple list and its members' site numbers |
| LammpsWrite.WriteCoeffIf | gmso/formats/lammpsdata.py:177-184 | a kind's coefficient table is written only when the topology has types of that kind |
| LammpsWrite.WriteConnIf | gmso/formats/lammpsdata.py:187-190 | a kind's connection section is written only when the topology has connections of that kind |
| LammpsWrite.WriteCoeffSections | gmso/formats/lammpsdata.py:177-184 | the four tables are written bonds, angles, dihedrals, impropers, stopping at the first that raises |
| LammpsWrite.WriteConnSections | gmso/formats/lammpsdata.py:187-190 | the four connection sections in the same order, stopping at the first that raises |
| LammpsWrite.WriteTypeSections | gmso/formats/lammpsdata.py:174-184 | the type tables are written only for a fully typed topology: masses, pairs, then the coefficient tables |
| LammpsWrite.WriteFile | gmso/formats/lammpsdata.py:171-190 | the file is returned exactly when no section raises, and it holds the header, the box, the type tables, the atoms and the connections in that order; otherwise the first section's error is returned |
| LammpsWrite.WriteData | gmso/formats/lammpsdata.py:171-190 | the open file receives the header, the box, the type tables, the atoms and the connections in that order, and the outcome is the error of the first section that raises |
| LammpsWrite.WriteSections | gmso/formats/lammpsdata.py:174-190 | the type tables, the atoms and the connection sections in that order, stopping at the first that raises |
| LammpsWrite.FirstUnconvertible | gmso/formats/lammpsdata.py:1026-1036 | the kind found has connections and no connection types and is one of those visited; none is found exactly when every visited kind has types or no connections |
| LammpsWrite.FirstUnconvertibleAt | gmso/formats/lammpsdata.py:1026-1036 | a kind that fails with none failing before it is the one found |
| LammpsWrite.ConvertibleWhenNoneFails | gmso/formats/lammpsdata.py:1026-1036 | the default conversions all pass exactly when every kind with connections has connection types |
| LammpsWrite.ConvertDefaults | gmso/formats/lammpsdata.py:142 | the default conversions pass when no kind fails and otherwise raise the AttributeError of the first kind that fails, in the order impropers, dihedrals, angles, bonds |
| LammpsWrite.LjFactors | gmso/formats/lammpsdata.py:145-162 | every unit style but lj writes with no factors; lj writes with the filled-in dictionary, or fails with the error of filling it; the defaults are taken over the list it is given, which the writer passes as the unfiltered `top.atom_types` |
| LammpsWrite.FactorsFor | gmso/formats/lammpsdata.py:145-162 | the factors written with are those of `LjFactors`; for lj the dictionary is left as `Resolved` says: after a successful fill it holds the filled-in factors, after a failed one the defaults filled in before the error; for other styles it is untouched; keys present before keep their values |
| LammpsWrite.FileHooks | gmso/formats/lammpsdata.py:164-190 | every number of the file is converted with the resolved factors; the other hooks are unchanged |
| LammpsWrite.WriteResultStages | gmso/formats/lammpsdata.py:45-190 | a write fails with the option error, else the AttributeError of a kind with connections and no types, else for lj the error of the factors; otherwise it gives the data file written with numbers converted by the factors (None for other styles, the filled-in dictionary for lj), or the exception that stopped it |
| LammpsWrite.WriteLammpsData | gmso/formats/lammpsdata.py:45-190 | the write succeeds exactly when every stage does (`WriteResult`, spelled out by `WriteResultStages`); a written file is new and holds exactly the lines of the data file written with the resolved factors; a failed write reports the first stage's error; the lj defaults are taken over the unfiltered `top.atom_types` (`Tables.allAtomTypes`); the factor dictionary is left as `Resolved` says for lj when the earlier stages pass (filled in on success, filled up to the error otherwise), untouched when they fail or the style is not lj, keeps the keys it had, and stays well formed |
| Ordering.StrLeTotal | gmso/formats/lammpsdata.py:738 | Python's string comparison is total |
| Ordering.StrLeAntisymmetric | gmso/formats/lammpsdata.py:738 | two strings each at most the other are equal |
| Ordering.StrLeTransitive | gmso/formats/lammpsdata.py:738 | string comparison is transitive |
| Ordering.KeyLeTotal | gmso/formats/lammpsdata.py:799 | Python's comparison of lists of strings is total |
| Ordering.KeyLeTransitive | gmso/formats/lammpsdata.py:799 | comparison of lists of strings is transitive |
| Ordering.SortBy | gmso/formats/lammpsdata.py:738 | `sorted(..., key=...)` keeps the length and the elements with their multiplicities |
| Ordering.SortByStable | gmso/formats/lammpsdata.py:738 | `sorted` is stable: the elements with any one key come out in the order they went in |
| Ordering.SortBySorted | gmso/formats/lammpsdata.py:738 | the result of `sorted` is in key order and a permutation of its input |
| Ordering.Map | gmso/formats/lammpsdata.py:1007-1012 | `map(f, s)`: one image per element, in order |
| Ordering.SortByMap | gmso/formats/lammpsdata.py:1007-1013 | sorting the images by a key that agrees with the elements' key gives the images of the sorted elements |
| Ordering.IndexOf | gmso/formats/lammpsdata.py:742 | `list.index`: absent exactly when the element is not in the list (ValueError), otherwise its first position |
| Ordering.IndexOfDistinct | gmso/formats/lammpsdata.py:1019 | in a list without repetitions, `index` of the element at position i is i |
| Ordering.MinStr | gmso/formats/lammpsdata.py:801-803 | the smaller of two strings: one of them, and at most both |
| Ordering.MaxStr | gmso/formats/lammpsdata.py:801-803 | the larger of two strings: one of them, and at least both |
| Text.SplitSkipsWs | gmso/formats/lammpsdata.py:454 | `str.split()` ignores leading whitespace |
| Text.SplitToken | gmso/formats/lammpsdata.py:454 | a token followed by whitespace or the end is the first field of `split()` |
| Text.Spaces | gmso/formats/lammpsdata.py:1019 | n spaces: length n, all whitespace |
| Text.LJust | gmso/formats/lammpsdata.py:1019 | `ljust(width)` keeps the text and pads it with whitespace only |
| Text.SplitJoinRow | gmso/formats/lammpsdata.py:454 | fields joined by tabs (each possibly padded), followed by whitespace, split back into exactly those fields |
| Text.NatToString | gmso/formats/lammpsdata.py:638 | `{:d}` of a natural number is a token of digits |
| Text.IntToString | gmso/formats/lammpsdata.py:742 | `{:d}` of an integer is a token |
| Text.DigitsOfNat | gmso/formats/lammpsdata.py:638 | the digits written for n have the value n |
| Text.ParseIntRoundTrip | gmso/formats/lammpsdata.py:449 | `int()` of the text `{:d}` writes for i is i |
| Text.SliceBound | gmso/formats/lammpsdata.py:452 | a slice bound is clamped into the list |
| Text.SliceWithin | gmso/formats/lammpsdata.py:452 | `readlines()[lo:hi]` is the rows from lo up to hi or the end, none when lo is past the end, and at most hi - lo rows |
| LammpsRoundTrip.CountLineRead | gmso/formats/lammpsdata.py:638 | a count line the header writes splits into the count and its word, and its first field reads back as the count |
| LammpsRoundTrip.TypesLineRead | gmso/formats/lammpsdata.py:646-648 | a type count line splits into the count, the kind and "types", and reads back as the count |
| LammpsRoundTrip.NumberIsNoWord | gmso/formats/lammpsdata.py:638 | a number's text is never a section word |
| LammpsRoundTrip.HeaderLinesMarked | gmso/formats/lammpsdata.py:638-668 | the reader's scans take the count from the writer's count lines and do not stop at them |
| LammpsRoundTrip.HeaderPieces | gmso/formats/lammpsdata.py:631-648 | the header starts with the title, a blank line, the atom count, the connection counts and the atom type count |
| LammpsRoundTrip.CountWord | gmso/formats/lammpsdata.py:640-643 | the word of a connection count line is the kind's name plus "s", the word the reader looks for |
| LammpsRoundTrip.HeaderSitesRead | gmso/formats/lammpsdata.py:638 | line 2 of the header is the atom count and reads back as the number of sites |
| LammpsRoundTrip.HeaderConnsRead | gmso/formats/lammpsdata.py:639-643 | for full and molecular styles lines 3 to 6 hold the counts of bonds, angles, dihedrals and impropers, and each reads back as its count |
| LammpsRoundTrip.HeaderNoConns | gmso/formats/lammpsdata.py:646-648 | for atomic and charge styles line 3 is the atom type count and reads back as it |
| LammpsRoundTrip.SectionRowsRead | gmso/formats/lammpsdata.py:452 | when the scan stops at a section header followed by a blank line, the slice the reader takes is exactly the rows written after them |
| LammpsRoundTrip.MassRowRead | gmso/formats/lammpsdata.py:544-549 | a written Masses row reads back as an atom type named by the row number, with the written mass in the style's mass unit |
| LammpsRoundTrip.SortByNoEqualTypes | gmso/formats/lammpsdata.py:738 | sorting a list of atom types in which no two are equal (`__eq__`) leaves no two equal |
| LammpsRoundTrip.MassRowsNumbered | gmso/formats/lammpsdata.py:739-746 | for a table in which no two atom types are equal (`__eq__`), the row at position i is numbered i + 1 |
| LammpsRoundTrip.PairRowFields | gmso/formats/lammpsdata.py:771 | a written pair row with its comment removed has exactly the fields number, epsilon, sigma |
| LammpsRoundTrip.PairRowRead | gmso/formats/lammpsdata.py:559-566 | the corrected reader gives a written pair row's atom type the written sigma and epsilon in the style's length and energy units, and changes nothing else |
| LammpsRoundTrip.PairRowFieldsAsWritten | gmso/formats/lammpsdata.py:560 | a written pair row, comment included, never has the three fields the source's pair loop reads |
| LammpsRoundTrip.CoeffLineParts | gmso/formats/lammpsdata.py:784-938 | a written coefficient row is the index and the numbers joined by tabs, whitespace, and the member comment, which impropers do not have |
| LammpsRoundTrip.CoeffRowFields | gmso/formats/lammpsdata.py:316 | the fields of a written coefficient row start with the index and the numbers; an improper row has no others |
| LammpsRoundTrip.ReadFactor | gmso/formats/lammpsdata.py:319-324 | the reader doubles exactly the harmonic K of bonds, angles and impropers |
| LammpsRoundTrip.CoeffRowRead | gmso/formats/lammpsdata.py:316-394 | a written coefficient row reads back as a type with the kind's parameters in the writer's order, each the written number, doubled for a harmonic K |
| LammpsRoundTrip.ImproperRowUnreadAsWritten | gmso/formats/lammpsdata.py:377-381 | the source reads the fourth field of a written improper row, which has three: every written improper row raises IndexError |
| LammpsRoundTrip.FfInformationAsWrittenIgnoresPairs | gmso/formats/lammpsdata.py:530-576 | on a file none of whose Pair Coeffs rows (the lines the pair loop reads after the first "Pair" line) has three fields, as every written row (`PairRowFieldsAsWritten`), the source's force-field reader returns exactly the atom types of the Masses section: no written pair parameter is applied |
| LammpsRoundTrip.NoPairRowApplies | gmso/formats/lammpsdata.py:559-568 | pair rows without three fields leave every atom type as it was |
| LammpsRoundTrip.SiteRowRead | gmso/formats/lammpsdata.py:453-467 | a written full-style Atoms row reads back as a site with the table type at the position the writer found for it, its molecule number, and the written charge and coordinates in the style's units |
| LammpsRoundTrip.SiteRowTypeEqual | gmso/formats/lammpsdata.py:453-467 | the atom type a written Atoms row reads back as is a type of the name-sorted table equal (`__eq__`) to the written site's type; it may differ from it in its tags |
| LammpsRoundTrip.ConnLineParts | gmso/formats/lammpsdata.py:1015-1023 | a written connection row comes from a typed connection whose tuple is in the list and whose members are sites |
| LammpsRoundTrip.JoinRowTwo | gmso/formats/lammpsdata.py:1016-1022 | two padded fields in front of the rest of a tab-joined row |
| LammpsRoundTrip.ConnRowText | gmso/formats/lammpsdata.py:1016-1023 | a connection row is its index, type number and site numbers, each padded to 6 and joined by tabs |
| LammpsRoundTrip.RefsRead | gmso/formats/lammpsdata.py:413-416 | fields holding the members' 1-based site numbers are read back as the members |
| LammpsRoundTrip.ConnFieldsRead | gmso/formats/lammpsdata.py:412-417 | the lexed fields of a connection row give back its members and its type number |
| LammpsRoundTrip.ConnRowRead | gmso/formats/lammpsdata.py:412-417 | a written connection row reads back as its members, in order, and as its type's 1-based position in the writer's tuple list |
| LammpsRoundTrip.ConnRowDecoded | gmso/formats/lammpsdata.py:412-439 | against a type list as long as the tuple list, a written connection row decodes exactly when its members are typed and distinct, to the written members and the type at its number with the members' type names |
| LammpsRoundTrip.TypeNumbersMatchTable | gmso/formats/lammpsdata.py:1007-1013 | when a kind's table key is its connection order applied to the tuple, the writer's tuple list is the tuples of the sorted table, position by position |
| LammpsRoundTrip.TorsionTypeNumbers | gmso/formats/lammpsdata.py:1016 | for dihedrals and impropers a connection row's type number is the coefficient row whose type has the connection's tuple |
| LammpsRoundTrip.IndexOfMap | gmso/formats/lammpsdata.py:1016 | a position found among images holds the image of the item there |
| LammpsRoundTrip.TorsionKeysAgree | gmso/formats/lammpsdata.py:984-993 | dihedral and improper tables are sorted by their connection order applied to the tuple |

## Left out

- File access: opening and re-reading the file, the `Path` parent check of the writer (FileNotFoundError), and the partially written file left behind when a section raises. `LammpsWrite.WriteFile` returns no file in that case.
- The first header line: the user name, topology name and date are the `title` parameter.
- Triclinic boxes: the writer's bound lines for a non-orthogonal box are taken as given (`Box.Triclinic`). The reader's `_get_box_coordinates` is not part of this model: it is floating-point trigonometry.
- unyt: unit arithmetic, `convert_parameter`, `write_out_parameter_and_units`, `allclose_units` and number formatting are foreign code, passed in as `Hooks`.
- Magnitudes of harmonic constants: the reader doubles a written K (`LammpsRoundTrip.ReadFactor`). Whether `convert_parameter` halves K on the way out is unknown to this model. A written and re-read table therefore agrees with the original up to that factor, and the model claims no more.
- `strict_potentials=True` and `strict_units=True` (`_validate_potential_compatibility`, `_validate_unit_compatibility`): only the default path is modelled. `convert_potential_styles` is foreign code. `LammpsConfig.TryDefaultConversions` models only the AttributeError raised for a kind with connections and no types.
- The potential templates of the reader (`PotentialTemplateLibrary`): a read connection type carries the template's name (`TemplateName`), not its expression or variables.
- The type tables `top.atom_types(filter_by=pfilter)` and `top.<kind>_types(...)`: their de-duplication is Topology internals and is taken as given (`LammpsWrite.Tables`), and so is the unfiltered `top.atom_types` the lj defaults are taken over (`Tables.allAtomTypes`).
- `element_by_mass`, the site's name and element, and `top.update_topology()` at the end of the read: foreign code, not modelled.
- `copy.copy`/`copy.deepcopy` of a type: values in this model are immutable, so a copy is the value itself and aliasing is not modelled.
- The whole-file round trip is not stated as one theorem. It is stated line kind by line kind and section by section, as in the round-trip lemmas above.
- Names of atom types read back: the reader names each type by its row number, so a written type's name, which is only in a comment, is not recovered (`LammpsRoundTrip.MassRowRead` states this as it is).
- The reader on an empty file: Python leaves the loop variable `i` unbound (UnboundLocalError). The model leaves the cursor at -1, so that case raises the error of the missing count instead.
- Pydantic field machinery, `__repr__`/`__str__`, `_etree_attrib` and sympy expressions are foreign code. Expressions are strings and independent variables are lists of strings.
- LammpsRoundTrip.SiteRowRead: covers the `full` atom style only, the one style the reader accepts.
- LammpsRoundTrip.TypeNumbersMatchTable: stated only for kinds whose table key is their connection order applied to `sort_by_types`. `sort_by_types` is foreign code, so for bonds and angles this premise is not proved.
- Floating point: numbers are exact reals. The rounding of `float()` and of the `.6f`, `{:7}`, `{:8}` and `.8` formats is not modelled; it is inside the `num` hook, and the round-trip lemmas read back whatever `float()` gives for the text `num` wrote.
- Python's `str.split()` also splits at Unicode whitespace such as `\x85`, `\xa0` and `\u2000`; `Text.IsWs` knows only ASCII whitespace, so lines holding such characters are split differently. `Text.ParseInt` and `Text.ParseReal` reject underscores (`1_000`), non-ASCII digits, `inf` and `nan`, which Python's `int()` and `float()` accept.
- LammpsWrite.Hooks: one `num` hook stands for the four number formats of the writer: `{:.6f}` for the box (gmso/formats/lammpsdata.py:689), `{:7}` in the coefficient tables (gmso/formats/lammpsdata.py:771 and :925), `{:8}` in the dihedral coefficient rows (gmso/formats/lammpsdata.py:885) and `{:.8}` in the Atoms rows (gmso/formats/lammpsdata.py:945-953). Their different widths and precisions are not told apart.
- AtomTypes.Equals: charge, mass and parameter values are equal when number and unit both agree. unyt also equates one amount written in two convertible units (1 kg and 1000 g); units are symbolic here, so `AtomTypes.SameFields`, `AtomTypes.IndexOfEqual` and the writer's type lookups do not.
- `ensure_valid_dimensions` (gmso/utils/misc.py) is foreign code. `AtomTypes.ValidateMass` and `AtomTypes.ValidateCharge` take it as given: a comparison of the quantity's dimension with the expected one that raises UnitConversionError when they differ.
- LammpsConfig.MaxOf: compares the numbers of the quantities only. unyt converts units before comparing; all values here come from one topology's atom types in one unit.

## Findings

| source | as written | input that shows it | evidently intended | confidence | as-written member | corrected member |
|---|---|---|---|---|---|---|
| gmso/formats/lammpsdata.py:560 | the pair loop counts the fields of the whole line, comment included, and applies sigma and epsilon only to rows with exactly three fields | any Pair Coeffs row the writer produces, e.g. `1\t0.5\t\t0.3\t\t# C` (fields `1`, `0.5`, `0.3`, `#`, `C`): five fields, so no written row is ever applied | count the fields before the `#` comment, so that a written row sets sigma and epsilon | not executed | LammpsRoundTrip.FfInformationAsWrittenIgnoresPairs | LammpsRoundTrip.PairRowRead |
| gmso/formats/lammpsdata.py:377-381 | the improper reader takes k from field 2 and phi_eq from field 3, and gives k the unit energy / energy squared | any Improper Coeffs row the writer produces, e.g. `1\t4.6\t0.0` (three fields): reading field 3 raises IndexError | read k from field 1 and phi_eq from field 2, as the writer lays the row out, and give k energy per squared angle like the angle table | not executed | LammpsRoundTrip.ImproperRowUnreadAsWritten | LammpsRoundTrip.CoeffRowRead |

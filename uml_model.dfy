/**
 * The in-memory UML model that the parser builds and that the validator and the
 * generator walk: packages owning classes, enumerations, associations and child
 * packages, plus the test-case instances used for fixture generation.
 */
module UmlModel {
  import opened Wrappers

  /** The identity of an attribute element (its xmi:id). Two references denote the
      same attribute exactly when they carry the same identifier. */
  type AttrId = string

  /** A class attribute. `classification` names the enumeration that types it, if any;
      `stereotype` is a free-form tag such as "auto". */
  datatype Attribute = Attribute(
    id: AttrId,
    name: string,
    typ: string,
    classification: Option<string>,
    stereotype: Option<string>,
    isId: bool)

  /** A class. `domain` is absent when the element carries no domain tag;
      `supertype` is the class it generalizes, if any; `idAttribute` is the attribute
      acting as its primary key, if any. */
  datatype UmlClass = UmlClass(
    name: string,
    domain: Option<string>,
    isAbstract: bool,
    supertype: Option<UmlClass>,
    idAttribute: Option<AttrId>,
    attributes: seq<Attribute>)

  datatype Enumeration = Enumeration(name: string, literals: seq<string>)

  /** An association end's (lower, upper) bounds, as the strings found in the XMI;
      an upper bound of "*" means unbounded. */
  datatype Multiplicity = Multiplicity(lower: string, upper: string)

  /** True when the upper bound is the unbounded sentinel "*". */
  predicate IsToMany(m: Multiplicity)
  {
    m.upper == "*"
  }

  datatype Association = Association(
    sourceName: string,
    destName: string,
    sourceMultiplicity: Multiplicity,
    destMultiplicity: Multiplicity)

  /** A package; `path` prefixes class names in validation messages. */
  datatype Package = Package(
    name: string,
    path: string,
    classes: seq<UmlClass>,
    enumerations: seq<Enumeration>,
    associations: seq<Association>,
    children: seq<Package>)

  /** An attribute of a test-case instance together with its literal value. */
  datatype Slot = Slot(name: string, value: string)

  /** A test-case instance: its name, its valued attributes and its outgoing links.
      Being an inductive value, the instance graph reachable through the links is
      finite and acyclic. */
  datatype Instance = Instance(name: string, attributes: seq<Slot>, associationsFrom: seq<Link>)

  /** An outgoing association of an instance, leading to the instance at its
      destination end. */
  datatype Link = Link(destMultiplicity: Multiplicity, dest: Instance)
}
